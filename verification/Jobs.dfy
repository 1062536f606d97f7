/** The queue of timed jobs (src/svc.c).  A timestamp is one integer; the job thread and the
    threads that arm or cancel jobs take turns under one mutex. */
module Jobs {

  /** `ExpireSessions` is the periodic job of the session table; others are opaque here. */
  datatype Task = ExpireSessions | OtherTask(tag: int)

  datatype Job = Job(id: nat, ts: int, task: Task)

  datatype Queue = Queue(head: seq<Job>, nextId: nat, cancels: seq<nat>)

  /** A queue and what has become of the jobs that left it. */
  datatype Timer = Timer(q: Queue, run: seq<Job>, cancelled: seq<Job>)

  datatype Event = Arm(ts: int, task: Task) | RequestCancel(id: nat) | Drain | Dispatch(now: int)

  /** First position whose job is due later. */
  function Place(head: seq<Job>, ts: int): (i: nat)
    ensures i <= |head|
    ensures forall k | 0 <= k < i :: head[k].ts <= ts
    ensures i < |head| ==> ts < head[i].ts
  {
    if head == [] || ts < head[0].ts then 0 else Place(head[1..], ts) + 1
  }

  /** `job_arm_unlocked` */
  function Armed(q: Queue, ts: int, task: Task): Queue {
    var i := Place(q.head, ts);
    q.(head := q.head[..i] + [Job(q.nextId, ts, task)] + q.head[i..], nextId := q.nextId + 1)
  }

  /** First position of the job with this id, or |head|. */
  function Find(head: seq<Job>, id: nat): (i: nat)
    ensures i <= |head|
    ensures i < |head| ==> head[i].id == id
    ensures forall k | 0 <= k < i :: head[k].id != id
  {
    if head == [] || head[0].id == id then 0 else Find(head[1..], id) + 1
  }

  function RemoveAt(head: seq<Job>, i: nat): seq<Job>
    requires i < |head|
  {
    head[..i] + head[i + 1..]
  }

  /** One event under the mutex.  `Drain` serves the oldest cancel request; `Dispatch` is the
      timer thread finding that the first job is due. */
  function Next(s: Timer, e: Event): Timer {
    match e
    case Arm(ts, task) => s.(q := Armed(s.q, ts, task))
    case RequestCancel(id) => s.(q := s.q.(cancels := s.q.cancels + [id]))
    case Drain =>
      if s.q.cancels == [] then s else
        var i := Find(s.q.head, s.q.cancels[0]);
        var q := s.q.(cancels := s.q.cancels[1..]);
        if i == |q.head| then s.(q := q)
        else s.(q := q.(head := RemoveAt(q.head, i)), cancelled := s.cancelled + [q.head[i]])
    case Dispatch(now) =>
      if s.q.head == [] || s.q.head[0].ts > now then s
      else s.(q := s.q.(head := s.q.head[1..]), run := s.run + [s.q.head[0]])
  }

  predicate Before(a: Job, b: Job) { a.ts < b.ts || (a.ts == b.ts && a.id < b.id) }

  /** By timestamp, ties in arming order. */
  predicate Ordered(head: seq<Job>) {
    forall i, j | 0 <= i < j < |head| :: Before(head[i], head[j])
  }

  predicate Below(head: seq<Job>, n: nat) {
    forall i | 0 <= i < |head| :: head[i].id < n
  }

  ghost function Ids(jobs: seq<Job>): multiset<nat> {
    multiset(seq(|jobs|, i requires 0 <= i < |jobs| => jobs[i].id))
  }

  /** Ids handed out so far, each once. */
  ghost function Issued(n: nat): multiset<nat> {
    if n == 0 then multiset{} else Issued(n - 1) + multiset{n - 1}
  }

  /** Every job ever armed is in exactly one place: pending, run once, or cancelled once. */
  ghost predicate Accounted(s: Timer) {
    Ids(s.q.head) + Ids(s.run) + Ids(s.cancelled) == Issued(s.q.nextId)
  }

  ghost predicate Inv(s: Timer) {
    Ordered(s.q.head) && Below(s.q.head, s.q.nextId) && Accounted(s)
  }

  lemma IdsConcat(a: seq<Job>, b: seq<Job>)
    ensures Ids(a + b) == Ids(a) + Ids(b)
  {
    var sa, sb := seq(|a|, i requires 0 <= i < |a| => a[i].id), seq(|b|, i requires 0 <= i < |b| => b[i].id);
    assert seq(|a + b|, i requires 0 <= i < |a + b| => (a + b)[i].id) == sa + sb;
  }

  lemma IdsOne(j: Job)
    ensures Ids([j]) == multiset{j.id}
  {
    assert seq(1, i requires 0 <= i < 1 => [j][i].id) == [j.id];
  }

  /** Arming keeps the order: the new job goes after all jobs due no later. */
  lemma ArmKeepsOrder(q: Queue, ts: int, task: Task)
    requires Ordered(q.head) && Below(q.head, q.nextId)
    ensures var r := Armed(q, ts, task); Ordered(r.head) && Below(r.head, r.nextId)
  {
    var i, j, r := Place(q.head, ts), Job(q.nextId, ts, task), Armed(q, ts, task).head;
    assert forall k | 0 <= k < i :: r[k] == q.head[k] && Before(r[k], j);
    assert r[i] == j;
    forall k | i < k < |r| ensures r[k] == q.head[k - 1] && Before(j, r[k]) {
      if k - 1 > i { assert Before(q.head[i], q.head[k - 1]); }
    }
  }

  lemma ArmAccounts(q: Queue, ts: int, task: Task)
    ensures Ids(Armed(q, ts, task).head) == Ids(q.head) + multiset{q.nextId}
  {
    var i, j := Place(q.head, ts), Job(q.nextId, ts, task);
    IdsConcat(q.head[..i], [j]);
    IdsConcat(q.head[..i] + [j], q.head[i..]);
    IdsConcat(q.head[..i], q.head[i..]);
    IdsOne(j);
    assert q.head[..i] + q.head[i..] == q.head;
  }

  lemma RemoveAccounts(head: seq<Job>, i: nat)
    requires i < |head|
    ensures Ids(head) == Ids(RemoveAt(head, i)) + multiset{head[i].id}
  {
    IdsConcat(head[..i], head[i + 1..]);
    IdsConcat(head[..i], [head[i]]);
    IdsConcat(head[..i] + [head[i]], head[i + 1..]);
    IdsOne(head[i]);
    assert head[..i] + [head[i]] + head[i + 1..] == head;
  }

  lemma RemoveKeepsOrder(head: seq<Job>, i: nat, n: nat)
    requires i < |head| && Ordered(head) && Below(head, n)
    ensures Ordered(RemoveAt(head, i)) && Below(RemoveAt(head, i), n)
  {
    var r := RemoveAt(head, i);
    assert forall k | 0 <= k < |r| :: r[k] == head[if k < i then k else k + 1];
  }

  lemma ArmKeepsInv(s: Timer, ts: int, task: Task)
    requires Inv(s)
    ensures Inv(Next(s, Arm(ts, task)))
  {
    hide Ids, Armed, Ordered, Below;
    ArmKeepsOrder(s.q, ts, task);
    ArmAccounts(s.q, ts, task);
    assert Armed(s.q, ts, task).nextId == s.q.nextId + 1 by { ArmedId(s.q, ts, task); }
  }

  lemma ArmedId(q: Queue, ts: int, task: Task)
    ensures Armed(q, ts, task).nextId == q.nextId + 1
  {
  }

  /** Taking one job out of the queue and noting it as run or as cancelled. */
  lemma MoveAccounts(head: seq<Job>, i: nat, log: seq<Job>)
    requires i < |head|
    ensures Ids(RemoveAt(head, i)) + Ids(log + [head[i]]) == Ids(head) + Ids(log)
  {
    hide Ids, RemoveAt;
    RemoveAccounts(head, i);
    IdsConcat(log, [head[i]]);
    IdsOne(head[i]);
  }

  /** Every event keeps the order and the account of all jobs. */
  lemma NextKeepsInv(s: Timer, e: Event)
    requires Inv(s)
    ensures Inv(Next(s, e))
  {
    hide Ids, Armed, Ordered, Below, Issued;
    match e
    case Arm(ts, task) => ArmKeepsInv(s, ts, task);
    case RequestCancel(id) =>
    case Drain =>
      if s.q.cancels != [] {
        var i := Find(s.q.head, s.q.cancels[0]);
        if i < |s.q.head| {
          RemoveKeepsOrder(s.q.head, i, s.q.nextId);
          MoveAccounts(s.q.head, i, s.cancelled);
          var h, c := RemoveAt(s.q.head, i), s.cancelled + [s.q.head[i]];
          assert Ids(h) + Ids(s.run) + Ids(c) == (Ids(h) + Ids(c)) + Ids(s.run);
          assert Ids(s.q.head) + Ids(s.run) + Ids(s.cancelled) == (Ids(s.q.head) + Ids(s.cancelled)) + Ids(s.run);
        }
      }
    case Dispatch(now) =>
      if s.q.head != [] && s.q.head[0].ts <= now {
        assert RemoveAt(s.q.head, 0) == s.q.head[1..];
        RemoveKeepsOrder(s.q.head, 0, s.q.nextId);
        MoveAccounts(s.q.head, 0, s.run);
      }
  }

  function After(s: Timer, es: seq<Event>): Timer {
    if es == [] then s else Next(After(s, es[..|es| - 1]), es[|es| - 1])
  }

  const Initial := Timer(Queue([], 0, []), [], [])

  /** In every run from an empty queue: ordered, and each armed job pending, run or cancelled,
      exactly one of these and only once. */
  lemma {:induction false} RunKeepsInv(es: seq<Event>)
    ensures Inv(After(Initial, es))
  {
    if es != [] {
      RunKeepsInv(es[..|es| - 1]);
      NextKeepsInv(After(Initial, es[..|es| - 1]), es[|es| - 1]);
    }
  }

  /** Arming adds one job, with the next id, behind all that are due no later and before all that are due later. */
  lemma ArmExactly(s: Timer, ts: int, task: Task)
    requires Inv(s)
    ensures var s', job := Next(s, Arm(ts, task)), Job(s.q.nextId, ts, task);
            && s'.q.cancels == s.q.cancels && s'.run == s.run && s'.cancelled == s.cancelled
            && s'.q.nextId == s.q.nextId + 1
            && exists i | 0 <= i <= |s.q.head| ::
                 && s'.q.head == s.q.head[..i] + [job] + s.q.head[i..]
                 && (forall k | 0 <= k < i :: s.q.head[k].ts <= ts) && forall k | i <= k < |s.q.head| :: ts < s.q.head[k].ts
  {
    hide Accounted;
    var h, i := s.q.head, Place(s.q.head, ts);
    assert forall k | i < k < |h| :: Before(h[i], h[k]);
  }

  /** A dispatch takes the first job out and runs it, if and only if it is due; otherwise it does nothing. */
  lemma DispatchExactly(s: Timer, now: int)
    ensures var s' := Next(s, Dispatch(now));
            if s.q.head != [] && s.q.head[0].ts <= now
            then s'.run == s.run + [s.q.head[0]] && [s.q.head[0]] + s'.q.head == s.q.head &&
                 s'.cancelled == s.cancelled && s'.q.cancels == s.q.cancels && s'.q.nextId == s.q.nextId
            else s' == s
  {
  }

  /** Whatever is dispatched was due and comes before everything still pending. */
  lemma DispatchIsEarliest(es: seq<Event>, now: int)
    ensures var s := After(Initial, es);
            var s' := Next(s, Dispatch(now));
            if exists j | j in s.q.head :: j.ts <= now
            then exists j :: s'.run == s.run + [j] && j.ts <= now && j in s.q.head &&
                             forall k | 0 <= k < |s'.q.head| :: Before(j, s'.q.head[k])
            else s' == s
  {
    RunKeepsInv(es);
    var s := After(Initial, es);
    DispatchExactly(s, now);
    FirstIsEarliest(s.q.head);
    hide After, Ordered, Before, Next;
    if j :| j in s.q.head && j.ts <= now {
      assert s.q.head[0].ts <= now;
      assert Next(s, Dispatch(now)).q.head == s.q.head[1..];
    }
  }

  lemma FirstIsEarliest(head: seq<Job>)
    requires Ordered(head)
    ensures head != [] ==> forall j | j in head :: head[0].ts <= j.ts
    ensures head != [] ==> forall k | 0 <= k < |head[1..]| :: Before(head[0], head[1..][k])
  {
  }

  /** A request for an id that is not pending removes nothing; one for a pending job removes
      exactly that job. */
  lemma CancelExactly(s: Timer)
    requires Inv(s) && s.q.cancels != []
    ensures var id := s.q.cancels[0];
            var s' := Next(s, Drain);
            && s'.q.nextId == s.q.nextId && s'.run == s.run && [id] + s'.q.cancels == s.q.cancels
            && (forall j | j in s.q.head && j.id == id :: s'.cancelled == s.cancelled + [j])
            && (forall j :: j in s'.q.head <==> j in s.q.head && j.id != id)
            && ((forall j :: j in s.q.head ==> j.id != id) ==> s'.q.head == s.q.head && s'.cancelled == s.cancelled)
  {
    var id, i := s.q.cancels[0], Find(s.q.head, s.q.cancels[0]);
    if i < |s.q.head| {
      var h := RemoveAt(s.q.head, i);
      PendingOnce(s, i);
      assert forall k | 0 <= k < |h| :: h[k] == s.q.head[if k < i then k else k + 1];
      assert forall k | 0 <= k < |s.q.head| && k != i :: s.q.head[k] == h[if k < i then k else k - 1];
    }
  }

  /** Ids of pending jobs are distinct. */
  lemma PendingOnce(s: Timer, i: nat)
    requires Inv(s) && i < |s.q.head|
    ensures forall k | 0 <= k < |s.q.head| && k != i :: s.q.head[k].id != s.q.head[i].id
  {
    forall k | 0 <= k < |s.q.head| && k != i ensures s.q.head[k].id != s.q.head[i].id {
      var h := RemoveAt(s.q.head, i);
      RemoveAccounts(s.q.head, i);
      IssuedOnce(s.q.nextId, s.q.head[i].id);
      var k' := if k < i then k else k - 1;
      assert h[k'] == s.q.head[k];
      InIds(h, k');
    }
  }

  lemma InIds(jobs: seq<Job>, k: nat)
    requires k < |jobs|
    ensures Ids(jobs)[jobs[k].id] >= 1
  {
    var ids := seq(|jobs|, i requires 0 <= i < |jobs| => jobs[i].id);
    assert ids[k] == jobs[k].id;
    assert jobs[k].id in ids;
  }

  lemma {:induction false} IssuedOnce(n: nat, id: nat)
    ensures Issued(n)[id] == if id < n then 1 else 0
  {
    if n > 0 {
      IssuedOnce(n - 1, id);
    }
  }

  /** All cancel requests served. */
  function DrainAll(s: Timer): Timer
    decreases |s.q.cancels|
  {
    if s.q.cancels == [] then s else DrainAll(Next(s, Drain))
  }

  /** Serving the requests leaves exactly the pending jobs that none of them names. */
  lemma {:induction false} DrainAllExactly(s: Timer)
    requires Inv(s)
    ensures var r := DrainAll(s);
            && Inv(r) && r.q.cancels == [] && r.q.nextId == s.q.nextId && r.run == s.run
            && forall j :: j in r.q.head <==> j in s.q.head && j.id !in s.q.cancels
    decreases |s.q.cancels|
  {
    hide Inv, Next;
    if s.q.cancels != [] {
      NextKeepsInv(s, Drain);
      CancelExactly(s);
      DrainAllExactly(Next(s, Drain));
    }
  }

  /** A request to cancel takes its job out, whatever requests come before it, and no other job. */
  lemma CancelTakesOut(s: Timer, id: nat)
    requires Inv(s)
    ensures var r, t := DrainAll(s), DrainAll(Next(s, RequestCancel(id)));
            t.run == s.run && forall j :: j in t.q.head <==> j in r.q.head && j.id != id
  {
    var c := Next(s, RequestCancel(id));
    NextKeepsInv(s, RequestCancel(id));
    assert forall x :: x in c.q.cancels <==> x in s.q.cancels || x == id;
    hide Inv, DrainAll;
    DrainAllExactly(s);
    DrainAllExactly(c);
  }

  // The queue in place.

  class JobQueue {
    var head: seq<Job>
    var nextId: nat
    var cancels: seq<nat>

    constructor ()
      ensures View() == Initial.q
    {
      head, nextId, cancels := [], 0, [];
    }

    ghost function View(): Queue
      reads this
    {
      Queue(head, nextId, cancels)
    }

    /** `job_enqueue`: the id of the new job. */
    method Enqueue(ts: int, task: Task) returns (jid: nat)
      modifies this
      ensures View() == Armed(old(View()), ts, task) && jid == old(nextId)
    {
      jid := nextId;
      nextId := nextId + 1;
      var t := 0;
      while t < |head|
        invariant 0 <= t <= |head|
        invariant Place(head, ts) == t + Place(head[t..], ts)
      {
        if ts < head[t].ts { break; }
        assert head[t..][1..] == head[t + 1..];
        t := t + 1;
      }
      head := head[..t] + [Job(jid, ts, task)] + head[t..];
    }

    /** `job_cancel` */
    method Cancel(id: nat)
      modifies this
      ensures View() == old(View()).(cancels := old(cancels) + [id])
    {
      cancels := cancels + [id];
    }

    /** `job_remove`: the job taken out, if it was pending. */
    method Remove(jid: nat) returns (ghost removed: seq<Job>)
      modifies this`head
      ensures var i := Find(old(head), jid);
              if i == |old(head)| then head == old(head) && removed == []
              else head == RemoveAt(old(head), i) && removed == [old(head)[i]]
    {
      removed := [];
      var t := 0;
      while t < |head|
        invariant 0 <= t <= |head| && head == old(head)
        invariant Find(head, jid) == t + Find(head[t..], jid)
      {
        if head[t].id == jid {
          removed := [head[t]];
          head := head[..t] + head[t + 1..];
          return;
        }
        assert head[t..][1..] == head[t + 1..];
        t := t + 1;
      }
    }

    /** The cancel loop of `thr_timer`. */
    method DrainCancels(ghost s: Timer) returns (ghost s': Timer)
      requires s.q == View()
      modifies this`head, this`cancels
      ensures cancels == [] && s'.q == View()
      ensures s' == DrainAll(s)
    {
      s' := s;
      while cancels != []
        invariant s'.q == View() && DrainAll(s') == DrainAll(s)
        decreases |cancels|
      {
        ghost var removed := Remove(cancels[0]);
        cancels := cancels[1..];
        s' := Next(s', Drain);
      }
    }

    /** The due part of `thr_timer`: shift the first job if its time has come. */
    method DispatchDue(now: int) returns (job: seq<Job>)
      modifies this`head
      ensures forall s: Timer :: s.q == old(View()) ==>
                Next(s, Dispatch(now)).q == View() && Next(s, Dispatch(now)).run == s.run + job
      ensures job == if old(head) != [] && old(head)[0].ts <= now then [old(head)[0]] else []
      ensures job + head == old(head)
    {
      job := [];
      if head != [] && head[0].ts <= now {
        job := [head[0]];
        head := head[1..];
      }
    }
  }
}
