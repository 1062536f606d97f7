/** A session table together with the job queue that expires it (src/svc.c). */
module Expiry {
  import opened Jobs
  import opened Sessions

  /** `flying` are jobs already dispatched whose threads have not yet taken the service mutex. */
  datatype System = System(table: Table, timer: Timer, flying: seq<Job>)

  datatype Step =
    | OnTable(op: Op)
    | Other(e: Jobs.Event)
    | RunJob(i: nat)

  /** Schedule the expiration job at the expiry of the first session. */
  function Schedule(s: System): System {
    if s.table.l == [] then s
    else s.(timer := Jobs.Next(s.timer, Arm(s.table.l[0].expire, ExpireSessions)))
  }

  predicate Allowed(s: System, step: Step) {
    match step
    case OnTable(op) => !op.Expire? && Timely(s.table, op)
    case Other(e) => !(e.Arm? && e.task.ExpireSessions?) && !DrainsExpiry(s.timer, e)
    case RunJob(i) => i < |s.flying|
  }

  /** A cancel request is served that names an expiration job. */
  predicate DrainsExpiry(timer: Timer, e: Jobs.Event) {
    e.Drain? && timer.q.cancels != [] &&
    var i := Jobs.Find(timer.q.head, timer.q.cancels[0]);
    i < |timer.q.head| && timer.q.head[i].task.ExpireSessions?
  }

  function Do(s: System, step: Step): System {
    match step
    case OnTable(op) =>
      var s' := s.(table := Apply(s.table, op));
      if op.Add? && |s'.table.l| == 1 then Schedule(s') else s'
    case Other(e) =>
      var timer := Jobs.Next(s.timer, e);
      if |timer.run| > |s.timer.run| then s.(timer := timer, flying := s.flying + [timer.run[|timer.run| - 1]])
      else s.(timer := timer)
    case RunJob(i) =>
      if i >= |s.flying| then s else
      var job := s.flying[i];
      var s' := s.(flying := RemoveAt(s.flying, i));
      if job.task.ExpireSessions? then Schedule(s'.(table := Apply(s.table, Expire(job.ts)))) else s'
  }

  predicate Covers(j: Job, l: seq<Entry>) {
    j.task.ExpireSessions? && (l != [] ==> j.ts <= l[0].expire)
  }

  /** A non-empty table has a pending or in-flight expiration job no later than its first expiry. */
  predicate Covered(s: System) {
    s.table.l != [] ==>
      (exists j | j in s.timer.q.head :: Covers(j, s.table.l)) || (exists j | j in s.flying :: Covers(j, s.table.l))
  }

  predicate Inv(s: System) { Sound(s.table) && Covered(s) }

  /** The first expiry of a sound table never becomes earlier, except by filling an empty table. */
  lemma FirstNotEarlier(t: Table, op: Op)
    requires Sound(t) && Timely(t, op) && t.l != [] && Apply(t, op).l != []
    requires op.Add? ==> |Apply(t, op).l| > 1
    ensures t.l[0].expire <= Apply(t, op).l[0].expire
  {
    var l := t.l;
    forall e | e in l ensures l[0].expire <= e.expire {
      var i :| 0 <= i < |l| && l[i] == e;
    }
    match op
    case Add(key, backend, now) => KeptFirst(l, NotKey(key));
    case Find(key, now) =>
      if Lookup(l, key).Some? && Keep(l, NotKey(key)) != [] {
        KeptFirst(l, NotKey(key));
      }
    case RemoveKey(key) => KeptFirst(l, NotKey(key));
    case RemoveBackend(backend) => KeptFirst(l, NotBackend(backend));
    case Expire(ts) =>
      DropDueIsFilter(l, ts);
      KeptFirst(l, Later(ts));
  }

  lemma KeptFirst(l: seq<Entry>, f: Filter)
    requires Keep(l, f) != []
    ensures Keep(l, f)[0] in l
  {
    KeepMember(l, f, Keep(l, f)[0]);
  }

  /** Coverage survives when the jobs stay and the first expiry is not earlier. */
  lemma StillCovered(s: System, s': System)
    requires Covered(s) && s.table.l != []
    requires s'.table.l != [] ==> s.table.l[0].expire <= s'.table.l[0].expire
    requires forall j | j in s.timer.q.head && j.task.ExpireSessions? :: j in s'.timer.q.head || j in s'.flying
    requires forall j | j in s.flying && j.task.ExpireSessions? :: j in s'.flying
    ensures Covered(s')
  {
    if exists j | j in s.timer.q.head :: Covers(j, s.table.l) {
      var j :| j in s.timer.q.head && Covers(j, s.table.l);
      assert Covers(j, s'.table.l);
    } else {
      var j :| j in s.flying && Covers(j, s.table.l);
      assert Covers(j, s'.table.l);
    }
  }

  /** Scheduling at the first expiry covers the table. */
  lemma ScheduleCovers(s: System)
    ensures Covered(Schedule(s)) && Schedule(s).table == s.table
  {
    if s.table.l != [] {
      var q := s.timer.q;
      var j := Job(q.nextId, s.table.l[0].expire, ExpireSessions);
      var r := Armed(q, j.ts, ExpireSessions).head;
      assert r[Place(q.head, j.ts)] == j;
      assert j in Schedule(s).timer.q.head && Covers(j, s.table.l);
    }
  }

  lemma TableKeepsInv(s: System, op: Op)
    requires Inv(s) && Allowed(s, OnTable(op))
    ensures Inv(Do(s, OnTable(op)))
  {
    ApplyKeepsSound(s.table, op);
    var s' := s.(table := Apply(s.table, op));
    hide Apply, Sound;
    if op.Add? && |s'.table.l| == 1 {
      ScheduleCovers(s');
    } else if s.table.l == [] {
      EmptyStaysOrGrows(s.table, op);
    } else {
      if s'.table.l != [] {
        AddedLength(s.table, op);
        FirstNotEarlier(s.table, op);
      }
      StillCovered(s, s');
    }
  }

  lemma AddedLength(t: Table, op: Op)
    ensures op.Add? ==> |Apply(t, op).l| >= 1
  {
  }

  lemma EmptyStaysOrGrows(t: Table, op: Op)
    requires t.l == []
    ensures Apply(t, op).l == [] || (op.Add? && |Apply(t, op).l| == 1)
  {
  }

  lemma EventKeepsInv(s: System, e: Jobs.Event)
    requires Inv(s) && Allowed(s, Other(e))
    ensures Inv(Do(s, Other(e)))
  {
    var s' := Do(s, Other(e));
    forall j | j in s.timer.q.head && j.task.ExpireSessions? ensures j in s'.timer.q.head || j in s'.flying {
      JobStays(s, e, j);
    }
    if s.table.l != [] {
      assert forall j | j in s.flying :: j in s'.flying;
      StillCovered(s, s');
    }
  }

  lemma JobStays(s: System, e: Jobs.Event, j: Job)
    requires Allowed(s, Other(e)) && j in s.timer.q.head && j.task.ExpireSessions?
    ensures var s' := Do(s, Other(e)); j in s'.timer.q.head || j in s'.flying
  {
    match e
    case Arm(ts, task) => ArmStays(s.timer.q, ts, task, j);
    case RequestCancel(id) =>
    case Drain =>
      if s.timer.q.cancels != [] {
        RemoveStays(s.timer.q.head, Jobs.Find(s.timer.q.head, s.timer.q.cancels[0]), j);
      }
    case Dispatch(now) =>
      var h := s.timer.q.head;
      if h[0].ts <= now {
        RemoveStays(h, 0, j);
        assert RemoveAt(h, 0) == h[1..];
        assert (s.flying + [h[0]])[|s.flying|] == h[0];
      }
  }

  lemma ArmStays(q: Queue, ts: int, task: Task, j: Job)
    requires j in q.head
    ensures j in Armed(q, ts, task).head
  {
    var k :| 0 <= k < |q.head| && q.head[k] == j;
    assert Armed(q, ts, task).head[if k < Place(q.head, ts) then k else k + 1] == j;
  }

  lemma RemoveStays(h: seq<Job>, i: nat, j: Job)
    requires j in h && i <= |h|
    ensures i < |h| && h[i] != j ==> j in RemoveAt(h, i)
  {
    var k :| 0 <= k < |h| && h[k] == j;
    if i < |h| && k != i {
      assert RemoveAt(h, i)[if k < i then k else k - 1] == j;
    }
  }

  lemma RunKeepsInv(s: System, i: nat)
    requires Inv(s) && i < |s.flying|
    ensures Inv(Do(s, RunJob(i)))
  {
    var job, rest := s.flying[i], RemoveAt(s.flying, i);
    if job.task.ExpireSessions? {
      ApplyKeepsSound(s.table, Expire(job.ts));
      ScheduleCovers(s.(flying := rest, table := Apply(s.table, Expire(job.ts))));
    } else if s.table.l != [] {
      forall j | j in s.flying && j.task.ExpireSessions? ensures j in rest {
        var k :| 0 <= k < |s.flying| && s.flying[k] == j;
        assert rest[if k < i then k else k - 1] == j;
      }
      StillCovered(s, Do(s, RunJob(i)));
    }
  }

  function After(steps: seq<Step>, start: int, ttl: int): System {
    if steps == [] then System(Table([], start, ttl), Initial, [])
    else Do(After(steps[..|steps| - 1], start, ttl), steps[|steps| - 1])
  }

  predicate AllAllowed(steps: seq<Step>, start: int, ttl: int) {
    steps == [] ||
    (AllAllowed(steps[..|steps| - 1], start, ttl) &&
     Allowed(After(steps[..|steps| - 1], start, ttl), steps[|steps| - 1]))
  }

  /** In every run whose cancel requests name no expiration job, a non-empty table always has an
      expiration job, pending or in flight, due no later than its first session. */
  lemma {:induction false} AlwaysCovered(steps: seq<Step>, start: int, ttl: int)
    requires AllAllowed(steps, start, ttl)
    ensures Inv(After(steps, start, ttl))
  {
    if steps != [] {
      var s := After(steps[..|steps| - 1], start, ttl);
      AlwaysCovered(steps[..|steps| - 1], start, ttl);
      match steps[|steps| - 1]
      case OnTable(op) => TableKeepsInv(s, op);
      case Other(e) => EventKeepsInv(s, e);
      case RunJob(i) => RunKeepsInv(s, i);
    }
  }

  // Who cancels: matrices, with the ids of their own jobs.

  /** The ids given to jobs other than the expiry job in a run. */
  function OtherIds(steps: seq<Step>, start: int, ttl: int): set<nat> {
    if steps == [] then {}
    else
      var front, last := steps[..|steps| - 1], steps[|steps| - 1];
      OtherIds(front, start, ttl) +
      if last.Other? && last.e.Arm? && !last.e.task.ExpireSessions? then {After(front, start, ttl).timer.q.nextId} else {}
  }

  /** What happens in the program: a cancel names a job that was armed for another task. */
  predicate Permitted(s: System, step: Step, ids: set<nat>) {
    match step
    case OnTable(op) => !op.Expire? && Timely(s.table, op)
    case Other(e) => !(e.Arm? && e.task.ExpireSessions?) && (e.RequestCancel? ==> e.id in ids)
    case RunJob(i) => i < |s.flying|
  }

  predicate AllPermitted(steps: seq<Step>, start: int, ttl: int) {
    steps == [] ||
    var front, last := steps[..|steps| - 1], steps[|steps| - 1];
    AllPermitted(front, start, ttl) && Permitted(After(front, start, ttl), last, OtherIds(front, start, ttl))
  }

  /** Pending jobs of these ids are not expiry jobs, and only these ids are to be cancelled. */
  predicate Foreign(q: Queue, ids: set<nat>) {
    && (forall id | id in ids :: id < q.nextId)
    && (forall j | j in q.head :: j.id < q.nextId && (j.id in ids ==> !j.task.ExpireSessions?))
    && (forall c | c in q.cancels :: c in ids)
  }

  lemma ArmForeign(q: Queue, ts: int, task: Task, ids: set<nat>)
    requires Foreign(q, ids)
    ensures Foreign(Armed(q, ts, task), if task.ExpireSessions? then ids else ids + {q.nextId})
  {
    hide Place;
  }

  lemma ScheduleForeign(s: System, ids: set<nat>)
    requires Foreign(s.timer.q, ids)
    ensures Foreign(Schedule(s).timer.q, ids)
  {
    hide Foreign;
    if s.table.l != [] { ArmForeign(s.timer.q, s.table.l[0].expire, ExpireSessions, ids); }
  }

  lemma EventForeign(timer: Timer, e: Jobs.Event, ids: set<nat>)
    requires Foreign(timer.q, ids) && !e.Arm? && (e.RequestCancel? ==> e.id in ids)
    ensures Foreign(Jobs.Next(timer, e).q, ids)
  {
    hide Jobs.Find;
  }

  lemma StepForeign(s: System, step: Step, ids: set<nat>)
    requires Foreign(s.timer.q, ids) && Permitted(s, step, ids)
    ensures Foreign(Do(s, step).timer.q, ids + if step.Other? && step.e.Arm? then {s.timer.q.nextId} else {})
  {
    hide Foreign;
    match step
    case OnTable(op) =>
      ScheduleForeign(s.(table := Apply(s.table, op)), ids);
      assert ids + {} == ids;
    case Other(e) =>
      if e.Arm? {
        ArmForeign(s.timer.q, e.ts, e.task, ids);
      } else {
        EventForeign(s.timer, e, ids);
        assert ids + {} == ids;
      }
    case RunJob(i) =>
      var job := s.flying[i];
      ScheduleForeign(s.(flying := RemoveAt(s.flying, i), table := Apply(s.table, Expire(job.ts))), ids);
      assert ids + {} == ids;
  }

  lemma NoneDrained(timer: Timer, e: Jobs.Event, ids: set<nat>)
    requires Foreign(timer.q, ids)
    ensures !DrainsExpiry(timer, e)
  {
    hide Jobs.Find;
  }

  /** Cancels by matrices never hit the expiry job. */
  lemma {:induction false} PermittedAllowed(steps: seq<Step>, start: int, ttl: int)
    requires AllPermitted(steps, start, ttl)
    ensures AllAllowed(steps, start, ttl) && Foreign(After(steps, start, ttl).timer.q, OtherIds(steps, start, ttl))
  {
    if steps != [] {
      var front, last := steps[..|steps| - 1], steps[|steps| - 1];
      PermittedAllowed(front, start, ttl);
      hide Foreign, Do, DrainsExpiry, Timely;
      var s, ids := After(front, start, ttl), OtherIds(front, start, ttl);
      StepForeign(s, last, ids);
      if last.Other? { NoneDrained(s.timer, last.e, ids); }
    }
  }

  /** With cancels as the program makes them, a table that is not empty always has its job. */
  lemma AlwaysCoveredInProgram(steps: seq<Step>, start: int, ttl: int)
    requires AllPermitted(steps, start, ttl)
    ensures Covered(After(steps, start, ttl))
  {
    PermittedAllowed(steps, start, ttl);
    AlwaysCovered(steps, start, ttl);
  }

  // Catching up: what the timer and its jobs do by themselves.

  /** Running the expiry job removes exactly the sessions due at its time, and arms the next one for the first that
      is left; another job is none of the table's business. */
  lemma JobRuns(s: System, i: nat)
    requires Sound(s.table) && i < |s.flying|
    ensures var t, job := Do(s, RunJob(i)), s.flying[i];
            && t.flying == s.flying[..i] + s.flying[i + 1..] && t.table.ttl == s.table.ttl && t.table.clock == s.table.clock
            && (job.task.ExpireSessions? ==>
                  && (forall e :: e in t.table.l <==> e in s.table.l && e.expire > job.ts)
                  && t.timer == if t.table.l == [] then s.timer
                                else Jobs.Next(s.timer, Arm(t.table.l[0].expire, ExpireSessions)))
            && (!job.task.ExpireSessions? ==> t.table == s.table && t.timer == s.timer)
  {
    var job := s.flying[i];
    DropDueIsFilter(s.table.l, job.ts);
    forall e ensures e in Keep(s.table.l, Later(job.ts)) <==> e in s.table.l && e.expire > job.ts {
      KeepMember(s.table.l, Later(job.ts), e);
    }
    hide DropDue, Keep, Sound;
  }

  /** A job that is dispatched flies; nothing else does. */
  lemma EventRuns(s: System, e: Jobs.Event)
    ensures var t := Do(s, Other(e));
            && t.table == s.table && t.timer == Jobs.Next(s.timer, e)
            && t.flying == s.flying + if e.Dispatch? && s.timer.q.head != [] && s.timer.q.head[0].ts <= e.now
                                      then [s.timer.q.head[0]] else []
  {
    assert s.flying + [] == s.flying;
  }

  /** The table works as it does without the timer; the first session, and no later one, arms a job. */
  lemma OperationRuns(s: System, op: Op)
    ensures var t := Do(s, OnTable(op));
            && t.table == Apply(s.table, op) && t.flying == s.flying
            && t.timer == if op.Add? && |t.table.l| == 1 then Jobs.Next(s.timer, Arm(t.table.l[0].expire, ExpireSessions))
                          else s.timer
  {
  }

  /** Steps of the timer, up to a time, and of the jobs that it has dispatched. */
  predicate TimerSteps(s: System, steps: seq<Step>, now: int)
    decreases |steps|
  {
    steps == [] ||
    ((steps[0] == Other(Dispatch(now)) || (steps[0].RunJob? && steps[0].i < |s.flying|)) &&
     TimerSteps(Do(s, steps[0]), steps[1..], now))
  }

  function Goes(s: System, steps: seq<Step>): System
    decreases |steps|
  {
    if steps == [] then s else Goes(Do(s, steps[0]), steps[1..])
  }

  lemma {:induction false} TimerStepsOn(s: System, a: seq<Step>, b: seq<Step>, now: int)
    requires TimerSteps(s, a, now) && TimerSteps(Goes(s, a), b, now)
    ensures TimerSteps(s, a + b, now) && Goes(s, a + b) == Goes(Goes(s, a), b)
    decreases |a|
  {
    hide Do;
    if a == [] {
      assert a + b == b;
    } else {
      assert (a + b)[1..] == a[1..] + b;
      TimerStepsOn(Do(s, a[0]), a[1..], b, now);
    }
  }

  predicate Ready(s: System) { Inv(s) && Ordered(s.timer.q.head) && Below(s.timer.q.head, s.timer.q.nextId) }

  lemma ReadyKept(s: System, step: Step)
    requires Ready(s) && (step.RunJob? || (step.Other? && step.e.Dispatch?)) && Allowed(s, step)
    ensures Ready(Do(s, step))
  {
    match step
    case RunJob(i) =>
      RunKeepsInv(s, i);
      JobRuns(s, i);
      var t := Do(s, step);
      hide Inv, Do, Sound;
      if t.timer != s.timer { ArmKeepsOrder(s.timer.q, t.table.l[0].expire, ExpireSessions); }
    case Other(e) =>
      EventKeepsInv(s, e);
      EventRuns(s, e);
      hide Inv, Do;
      var h := s.timer.q.head;
      if h != [] && h[0].ts <= e.now {
        RemoveKeepsOrder(h, 0, s.timer.q.nextId);
        assert RemoveAt(h, 0) == h[1..];
      }
  }

  /** A job that is due can be dispatched, after those before it. */
  lemma {:induction false} DispatchTo(s: System, k: nat, now: int) returns (steps: seq<Step>, t: System)
    requires Ready(s) && k < |s.timer.q.head| && s.timer.q.head[k].ts <= now
    ensures TimerSteps(s, steps, now) && t == Goes(s, steps)
    ensures Ready(t) && t.table == s.table && s.timer.q.head[k] in t.flying
    decreases k
  {
    var h, step := s.timer.q.head, Other(Dispatch(now));
    if k > 0 { assert Before(h[0], h[k]); }
    ReadyKept(s, step);
    EventRuns(s, Dispatch(now));
    var u := Do(s, step);
    assert u.timer.q.head == h[1..] && u.flying == s.flying + [h[0]];
    hide Ready, Do;
    assert [step][0] == step && [step][1..] == [];
    assert TimerSteps(u, [], now) && Goes(u, []) == u;
    if k == 0 {
      steps, t := [step], u;
      assert h[0] in u.flying;
    } else {
      var more;
      more, t := DispatchTo(u, k - 1, now);
      TimerStepsOn(s, [step], more, now);
      steps := [step] + more;
    }
  }

  /** The job goes from the queue, or from among those in flight, to running. */
  lemma BringUp(s: System, j: Job, now: int) returns (steps: seq<Step>, t: System, i: nat)
    requires Ready(s) && (j in s.timer.q.head || j in s.flying) && j.ts <= now
    ensures TimerSteps(s, steps, now) && t == Goes(s, steps)
    ensures Ready(t) && t.table == s.table && i < |t.flying| && t.flying[i] == j
  {
    if j in s.flying {
      steps, t := [], s;
    } else {
      var k :| 0 <= k < |s.timer.q.head| && s.timer.q.head[k] == j;
      steps, t := DispatchTo(s, k, now);
    }
    hide *;
    i :| 0 <= i < |t.flying| && t.flying[i] == j;
  }

  /** A job for just the first expiry. */
  ghost predicate Exact(s: System) {
    s.table.l != [] && exists j | j in s.timer.q.head || j in s.flying :: j.task.ExpireSessions? && j.ts == s.table.l[0].expire
  }

  lemma SomeJob(s: System) returns (j: Job)
    requires Covered(s) && s.table.l != []
    ensures (j in s.timer.q.head || j in s.flying) && Covers(j, s.table.l)
    ensures Exact(s) ==> j.ts == s.table.l[0].expire
  {
    if Exact(s) {
      j :| (j in s.timer.q.head || j in s.flying) && j.task.ExpireSessions? && j.ts == s.table.l[0].expire;
    } else if k :| k in s.timer.q.head && Covers(k, s.table.l) {
      j := k;
    } else {
      j :| j in s.flying && Covers(j, s.table.l);
    }
  }

  /** Dropping what is due at some time leaves the same for a later time. */
  lemma {:induction false} KeepAfterDrop(l: seq<Entry>, ts: int, now: int)
    requires ts <= now
    ensures Keep(DropDue(l, ts), Later(now)) == Keep(l, Later(now))
  {
    if l != [] && l[0].expire <= ts { KeepAfterDrop(l[1..], ts, now); }
  }

  lemma DropShortens(l: seq<Entry>, ts: int)
    ensures |DropDue(l, ts)| <= |l|
    ensures l != [] && l[0].expire <= ts ==> |DropDue(l, ts)| < |l|
  {
  }

  /** Running a job that covers the table: a session goes, or a job for just the first one is armed. */
  lemma RunCovering(s: System, i: nat, now: int)
    requires Ready(s) && s.table.l != [] && i < |s.flying| && Covers(s.flying[i], s.table.l) && s.flying[i].ts <= now
    ensures var t := Do(s, RunJob(i));
            && Ready(t) && Keep(t.table.l, Later(now)) == Keep(s.table.l, Later(now))
            && (|t.table.l| < |s.table.l| || (t.table.l == s.table.l && Exact(t) && s.flying[i].ts < s.table.l[0].expire))
  {
    ReadyKept(s, RunJob(i));
    var t, job, l := Do(s, RunJob(i)), s.flying[i], s.table.l;
    KeepAfterDrop(l, job.ts, now);
    DropShortens(l, job.ts);
    assert t.table.l == DropDue(l, job.ts);
    if l[0].expire > job.ts {
      assert t.table.l == l;
      var q := s.timer.q;
      var n := Job(q.nextId, l[0].expire, ExpireSessions);
      assert t.timer.q.head[Place(q.head, n.ts)] == n;
    }
  }

  /** From every state of a run, and for every time, the timer and its jobs alone bring the table to hold exactly the
      sessions that are not due then. */
  lemma {:induction false} CatchUp(s: System, now: int) returns (steps: seq<Step>)
    requires Ready(s)
    ensures TimerSteps(s, steps, now) && Goes(s, steps).table.l == Keep(s.table.l, Later(now))
    decreases |s.table.l|, if Exact(s) then 0 else 1
  {
    if s.table.l == [] || s.table.l[0].expire > now {
      steps := [];
      KeepAll(s.table.l, Later(now));
    } else {
      var j := SomeJob(s);
      var before, t, i := BringUp(s, j, now);
      RunCovering(t, i, now);
      var u := Do(t, RunJob(i));
      hide Ready, Do, Keep, Covers;
      var after := CatchUp(u, now);
      var run := [RunJob(i)];
      assert run[1..] == [];
      assert TimerSteps(u, [], now) && Goes(u, []) == u && TimerSteps(t, run, now) && Goes(t, run) == u;
      TimerStepsOn(t, run, after, now);
      TimerStepsOn(s, before, run + after, now);
      steps := before + (run + after);
    }
  }

  lemma {:induction false} AlwaysOrdered(steps: seq<Step>, start: int, ttl: int)
    ensures var h, n := After(steps, start, ttl).timer.q.head, After(steps, start, ttl).timer.q.nextId; Ordered(h) && Below(h, n)
  {
    assert Jobs.Inv(After(steps, start, ttl).timer) by { TimerInv(steps, start, ttl); }
  }

  lemma {:induction false} TimerInv(steps: seq<Step>, start: int, ttl: int)
    ensures Jobs.Inv(After(steps, start, ttl).timer)
  {
    if steps == [] {
      Jobs.RunKeepsInv([]);
    } else {
      TimerInv(steps[..|steps| - 1], start, ttl);
      var s, last := After(steps[..|steps| - 1], start, ttl), steps[|steps| - 1];
      var t := Do(s, last);
      if last.Other? {
        NextKeepsInv(s.timer, last.e);
      } else if t.timer != s.timer {
        NextKeepsInv(s.timer, Arm(t.table.l[0].expire, ExpireSessions));
      }
    }
  }

  ghost predicate CanExpire(s: System, now: int) {
    exists steps :: TimerSteps(s, steps, now) && Goes(s, steps).table.l == Keep(s.table.l, Later(now))
  }

  /** Sessions expire: after every run of the program, and for every time, the timer and its jobs alone can bring the
      table to hold exactly the sessions that are not due at that time. */
  lemma SessionsExpire(steps: seq<Step>, start: int, ttl: int, now: int)
    requires AllPermitted(steps, start, ttl)
    ensures CanExpire(After(steps, start, ttl), now)
  {
    PermittedAllowed(steps, start, ttl);
    AlwaysCovered(steps, start, ttl);
    AlwaysOrdered(steps, start, ttl);
    var more := CatchUp(After(steps, start, ttl), now);
  }

  /** Once no expiry job is due or in flight, no session is overdue. */
  lemma NoneOverdue(steps: seq<Step>, start: int, ttl: int, now: int, e: Entry)
    requires AllPermitted(steps, start, ttl)
    requires var s := After(steps, start, ttl);
             && e in s.table.l && (forall j | j in s.flying :: !j.task.ExpireSessions?)
             && forall j | j in s.timer.q.head && j.task.ExpireSessions? :: j.ts > now
    ensures e.expire > now
  {
    var s := After(steps, start, ttl);
    PermittedAllowed(steps, start, ttl);
    AlwaysCovered(steps, start, ttl);
    hide After, AllPermitted;
    var j :| j in s.timer.q.head && Covers(j, s.table.l);
    var i :| 0 <= i < |s.table.l| && s.table.l[i] == e;
    assert s.table.l[0].expire <= s.table.l[i].expire;
  }

  const Fresh := System(Table([], 0, 10), Initial, [])

  const OneSession := System(Table([Entry("k", 1, 10)], 0, 10), Timer(Queue([Job(0, 10, ExpireSessions)], 1, []), [], []), [])

  /** The first session of a table arms a job for its own expiry, whatever else is pending. */
  lemma FirstSession(s: System, key: string, be: nat, now: int)
    requires s.table.l == []
    ensures var e, t := Entry(key, be, now + s.table.ttl), Do(s, OnTable(Add(key, be, now)));
            && t.table.l == [e] && t.flying == s.flying && Covered(t)
            && Job(s.timer.q.nextId, e.expire, ExpireSessions) in t.timer.q.head
            && forall j | j in s.timer.q.head :: j in t.timer.q.head
  {
    var e, t := Entry(key, be, now + s.table.ttl), Do(s, OnTable(Add(key, be, now)));
    var i, j := Place(s.timer.q.head, e.expire), Job(s.timer.q.nextId, e.expire, ExpireSessions);
    assert Added([], e) == [e];
    assert t.timer.q.head[i] == j && Covers(j, [e]);
    forall k | k in s.timer.q.head ensures k in t.timer.q.head { ArmStays(s.timer.q, e.expire, ExpireSessions, k); }
  }

  lemma FirstOfAll()
    ensures Do(Fresh, OnTable(Add("k", 1, 0))) == OneSession && Covered(OneSession)
  {
    FirstSession(Fresh, "k", 1, 0);
    assert Added([], Entry("k", 1, 10)) == [Entry("k", 1, 10)];
  }

  /** The condition on cancels is needed: cancelling the first job leaves a session uncovered. */
  lemma CancelUncovers()
    ensures var s1 := Do(Do(Fresh, OnTable(Add("k", 1, 0))), Other(RequestCancel(0)));
            Covered(s1) && DrainsExpiry(s1.timer, Drain) && !Covered(Do(s1, Other(Drain)))
  {
    FirstOfAll();
    var j := Job(0, 10, ExpireSessions);
    assert [] + [0] == [0] && Jobs.Find([j], 0) == 0 && RemoveAt([j], 0) == [];
  }
}
