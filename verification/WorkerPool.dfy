/** The pool of worker threads and its queue of requests (src/pound.c). */
module WorkerPools {
  import opened Options

  /** Where a worker is: about to look at the queue, asleep in a wait (with or without a timeout), woken by
      the timeout and not yet in possession of the mutex, or serving a request. */
  datatype Mode = Ready | Asleep(timed: bool) | TimedOut | Busy(request: nat)

  datatype State = State(
    min: nat, max: nat,
    queue: seq<nat>,
    count: nat,
    active: nat,
    threads: map<nat, Mode>,
    enqueued: seq<nat>,
    taken: seq<nat>)

  /** The steps, each taken under the mutex or by the system.  `wake` is the sleeper that a signal wakes. */
  datatype Step =
    | Enqueue(request: nat, newId: nat, wake: Option<nat>)
    | Look(t: nat, wake: Option<nat>)
    | Expire(t: nat, wake: Option<nat>)
    | Finish(t: nat)
    | Wake(t: nat)
    | Timeout(t: nat)

  predicate Sleeps(threads: map<nat, Mode>, t: nat) { t in threads && threads[t].Asleep? }

  predicate NoSleeper(threads: map<nat, Mode>) { forall t | t in threads :: !threads[t].Asleep? }

  /** A signal wakes a sleeper if there is one. */
  predicate Signals(threads: map<nat, Mode>, wake: Option<nat>) {
    match wake
    case Some(t) => Sleeps(threads, t)
    case None => NoSleeper(threads)
  }

  function Signalled(threads: map<nat, Mode>, wake: Option<nat>): map<nat, Mode> {
    if wake.Some? then threads[wake.value := Ready] else threads
  }

  predicate Grows(s: State) { s.count < s.max && s.count == s.active }

  function Started(s: State, newId: nat): map<nat, Mode> {
    if Grows(s) then s.threads[newId := Ready] else s.threads
  }

  predicate Enabled(s: State, step: Step) {
    match step
    case Enqueue(_, newId, wake) => newId !in s.threads && Signals(Started(s, newId), wake)
    case Look(t, wake) => t in s.threads && s.threads[t] == Ready && (|s.queue| > 1 ==> Signals(s.threads, wake))
    case Expire(t, wake) =>
      t in s.threads && s.threads[t] == TimedOut && (s.count == s.min && |s.queue| > 1 ==> Signals(s.threads, wake))
    case Finish(t) => t in s.threads && s.threads[t].Busy? && s.active > 0
    case Wake(t) => Sleeps(s.threads, t)
    case Timeout(t) => t in s.threads && s.threads[t] == Asleep(true)
  }

  /** The loop test of `pound_http_dequeue`: take the head of the queue, or sleep. */
  function Looked(s: State, t: nat, wake: Option<nat>): State {
    if s.queue == [] then s.(threads := s.threads[t := Asleep(s.count != s.min)])
    else
      var after := s.threads[t := Busy(s.queue[0])];
      s.(queue := s.queue[1..], taken := s.taken + [s.queue[0]], active := s.active + 1,
         threads := if |s.queue| > 1 then Signalled(after, wake) else after)
  }

  function Do(s: State, step: Step): State
    requires Enabled(s, step)
  {
    match step
    case Enqueue(x, newId, wake) =>
      s.(queue := s.queue + [x], enqueued := s.enqueued + [x],
         count := if Grows(s) then s.count + 1 else s.count, threads := Signalled(Started(s, newId), wake))
    case Look(t, wake) => Looked(s, t, wake)
    case Expire(t, wake) => if s.count == s.min then Looked(s, t, wake) else Exited(s, t)
    case Finish(t) => s.(threads := s.threads[t := Ready], active := s.active - 1)
    case Wake(t) => s.(threads := s.threads[t := Ready])
    case Timeout(t) => s.(threads := s.threads[t := TimedOut])
  }

  function Exited(s: State, t: nat): State {
    s.(threads := s.threads - {t}, count := if s.count > 0 then s.count - 1 else 0)
  }

  // What every run keeps.

  function BusyOf(threads: map<nat, Mode>): set<nat> { set t | t in threads && threads[t].Busy? }

  /** The counters count, and stay within their bounds. */
  predicate Counted(s: State) {
    s.count == |s.threads.Keys| && s.active == |BusyOf(s.threads)| && s.min <= s.count <= s.max
  }

  /** Requests are taken in the order they came, none is lost and none is taken twice. */
  predicate InOrder(s: State) { s.taken + s.queue == s.enqueued }

  /** While a request waits, no worker sleeps or some worker is about to look at the queue. */
  predicate NoLostWakeup(queue: seq<nat>, threads: map<nat, Mode>) {
    queue != [] ==> NoSleeper(threads) || exists t | t in threads :: threads[t] == Ready
  }

  predicate Inv(s: State) { Counted(s) && InOrder(s) && NoLostWakeup(s.queue, s.threads) }

  lemma ActiveAtMostCount(s: State)
    requires Counted(s)
    ensures s.active <= s.count
  {
    Smaller(BusyOf(s.threads), s.threads.Keys);
  }

  lemma {:induction false} Smaller(a: set<nat>, b: set<nat>)
    requires a <= b
    ensures |a| <= |b|
  {
    if a != {} {
      var x :| x in a;
      Smaller(a - {x}, b - {x});
    }
  }

  lemma BusySame(threads: map<nat, Mode>, t: nat, m: Mode)
    requires !m.Busy? && (t in threads ==> !threads[t].Busy?)
    ensures BusyOf(threads[t := m]) == BusyOf(threads)
  {
  }

  lemma BusyMore(threads: map<nat, Mode>, t: nat, x: nat)
    requires t in threads ==> !threads[t].Busy?
    ensures BusyOf(threads[t := Busy(x)]) == BusyOf(threads) + {t} && t !in BusyOf(threads)
  {
  }

  lemma BusyFewer(threads: map<nat, Mode>, t: nat)
    requires t in threads && threads[t].Busy?
    ensures BusyOf(threads[t := Ready]) == BusyOf(threads) - {t} && t in BusyOf(threads)
  {
  }

  lemma KeysSame(threads: map<nat, Mode>, t: nat, m: Mode)
    requires t in threads
    ensures threads[t := m].Keys == threads.Keys
  {
  }

  lemma SignalKeeps(threads: map<nat, Mode>, wake: Option<nat>)
    requires Signals(threads, wake)
    ensures Signalled(threads, wake).Keys == threads.Keys && BusyOf(Signalled(threads, wake)) == BusyOf(threads)
    ensures forall q :: NoLostWakeup(q, Signalled(threads, wake))
  {
    if wake.Some? {
      KeysSame(threads, wake.value, Ready);
      BusySame(threads, wake.value, Ready);
      assert Signalled(threads, wake)[wake.value] == Ready;
    }
  }

  lemma EnqueueKeeps(s: State, x: nat, newId: nat, wake: Option<nat>)
    requires Inv(s) && Enabled(s, Enqueue(x, newId, wake))
    ensures Inv(Do(s, Enqueue(x, newId, wake)))
  {
    var started := Started(s, newId);
    assert Grows(s) ==> started.Keys == s.threads.Keys + {newId};
    BusySame(s.threads, newId, Ready);
    SignalKeeps(started, wake);
    assert s.taken + (s.queue + [x]) == s.taken + s.queue + [x];
    hide BusyOf, NoLostWakeup, Signals, Signalled;
  }

  lemma LookKeeps(s: State, t: nat, wake: Option<nat>)
    requires Inv(s) && t in s.threads && !s.threads[t].Busy? && !s.threads[t].Asleep?
    requires |s.queue| > 1 ==> Signals(s.threads, wake)
    ensures Inv(Looked(s, t, wake))
  {
    if s.queue == [] {
      KeysSame(s.threads, t, Asleep(s.count != s.min));
      BusySame(s.threads, t, Asleep(s.count != s.min));
    } else {
      var x := s.queue[0];
      var after := s.threads[t := Busy(x)];
      KeysSame(s.threads, t, Busy(x));
      BusyMore(s.threads, t, x);
      assert s.taken + [x] + s.queue[1..] == s.taken + s.queue;
      if |s.queue| > 1 {
        assert Signals(after, wake);
        SignalKeeps(after, wake);
      }
      hide BusyOf, Signals, Signalled;
    }
  }

  lemma ExitKeeps(s: State, t: nat)
    requires Inv(s) && t in s.threads && s.threads[t] == TimedOut && s.count != s.min
    ensures Inv(Exited(s, t))
  {
    var after := s.threads - {t};
    assert after.Keys == s.threads.Keys - {t};
    assert BusyOf(after) == BusyOf(s.threads);
    if s.queue != [] && !NoSleeper(s.threads) {
      var r :| r in s.threads && s.threads[r] == Ready;
      assert after[r] == Ready;
    }
  }

  lemma ModeKeeps(s: State, t: nat, m: Mode)
    requires Inv(s) && t in s.threads && !s.threads[t].Busy? && (m == Ready || (m == TimedOut && s.threads[t].Asleep?))
    ensures Inv(s.(threads := s.threads[t := m]))
  {
    var after := s.threads[t := m];
    KeysSame(s.threads, t, m);
    BusySame(s.threads, t, m);
    if s.queue != [] && !NoSleeper(after) {
      if m == Ready {
        assert after[t] == Ready;
      } else {
        var r :| r in s.threads && s.threads[r] == Ready;
        assert after[r] == Ready;
      }
    }
    hide BusyOf;
  }

  lemma FinishKeeps(s: State, t: nat)
    requires Inv(s) && Enabled(s, Finish(t))
    ensures Inv(Do(s, Finish(t)))
  {
    var after := s.threads[t := Ready];
    KeysSame(s.threads, t, Ready);
    BusyFewer(s.threads, t);
    assert after[t] == Ready;
    hide BusyOf;
  }

  lemma StepKeepsInv(s: State, step: Step)
    requires Inv(s) && Enabled(s, step)
    ensures Inv(Do(s, step)) && (s.min >= 1 ==> Attended(Do(s, step)))
  {
    hide Inv;
    OneStepKeepsInv(s, step);
    if s.min >= 1 { InvAttended(Do(s, step)); }
  }

  lemma OneStepKeepsInv(s: State, step: Step)
    requires Inv(s) && Enabled(s, step)
    ensures Inv(Do(s, step)) && Do(s, step).min == s.min
  {
    hide Inv;
    match step
    case Enqueue(x, newId, wake) => EnqueueKeeps(s, x, newId, wake);
    case Look(t, wake) => LookKeeps(s, t, wake);
    case Expire(t, wake) => if s.count == s.min { LookKeeps(s, t, wake); } else { ExitKeeps(s, t); }
    case Finish(t) => FinishKeeps(s, t);
    case Wake(t) => ModeKeeps(s, t, Ready);
    case Timeout(t) => ModeKeeps(s, t, TimedOut);
  }

  /** The pool once its first workers have been started. */
  ghost predicate Startup(s: State) {
    && s.queue == [] && s.enqueued == [] && s.taken == [] && s.active == 0
    && s.count == s.min == |s.threads.Keys| && s.min <= s.max
    && forall t | t in s.threads :: s.threads[t] == Ready
  }

  ghost predicate IsRun(s: State, steps: seq<Step>, t: State)
    decreases |steps|
  {
    if steps == [] then t == s else Enabled(s, steps[0]) && IsRun(Do(s, steps[0]), steps[1..], t)
  }

  lemma {:induction false} RunKeepsInv(s: State, steps: seq<Step>, t: State)
    requires Inv(s) && IsRun(s, steps, t)
    ensures Inv(t) && t.min == s.min && t.max == s.max
    decreases |steps|
  {
    hide Inv;
    if steps != [] {
      StepKeepsInv(s, steps[0]);
      RunKeepsInv(Do(s, steps[0]), steps[1..], t);
    }
  }

  /** The requests that a run puts in the queue, in order. */
  function Requests(steps: seq<Step>): seq<nat> {
    if steps == [] then [] else (if steps[0].Enqueue? then [steps[0].request] else []) + Requests(steps[1..])
  }

  lemma StepEnqueues(s: State, step: Step)
    requires Enabled(s, step)
    ensures Do(s, step).enqueued == s.enqueued + if step.Enqueue? then [step.request] else []
  {
    hide Signals, Signalled, Started;
    assert s.enqueued + [] == s.enqueued;
  }

  lemma {:induction false} RunEnqueues(s: State, steps: seq<Step>, t: State)
    requires IsRun(s, steps, t)
    ensures t.enqueued == s.enqueued + Requests(steps)
    decreases |steps|
  {
    hide Enabled, Do;
    if steps != [] {
      StepEnqueues(s, steps[0]);
      RunEnqueues(Do(s, steps[0]), steps[1..], t);
    }
  }

  /** Exactly one thread is changed by a signal, and only if one sleeps: it is about to look at the queue. */
  ghost predicate WokenOne(before: map<nat, Mode>, after: map<nat, Mode>) {
    && after.Keys == before.Keys
    && if NoSleeper(before) then after == before
       else exists w | w in before :: before[w].Asleep? && after == before[w := Ready]
  }

  lemma SignalWakes(threads: map<nat, Mode>, wake: Option<nat>)
    requires Signals(threads, wake)
    ensures WokenOne(threads, Signalled(threads, wake))
  {
  }

  /** A request goes to the end of the queue and wakes one sleeper; a worker is started if all are busy and there may
      be more. */
  lemma EnqueueDoes(s: State, x: nat, newId: nat, wake: Option<nat>)
    requires Enabled(s, Enqueue(x, newId, wake))
    ensures var t, grows := Do(s, Enqueue(x, newId, wake)), s.active == s.count < s.max;
            && t.queue == s.queue + [x] && t.count == (if grows then s.count + 1 else s.count)
            && WokenOne(if grows then s.threads[newId := Ready] else s.threads, t.threads)
            && t == s.(queue := t.queue, enqueued := t.enqueued, count := t.count, threads := t.threads)
  {
    SignalWakes(Started(s, newId), wake);
  }

  /** A worker that looks takes the oldest request, and wakes one sleeper if more are waiting; without a request it
      sleeps, for a limited time if there are more workers than the least number. */
  lemma LookDoes(s: State, w: nat, wake: Option<nat>)
    requires Enabled(s, Look(w, wake))
    ensures var t := Do(s, Look(w, wake));
            if s.queue == [] then t == s.(threads := s.threads[w := Asleep(s.count != s.min)])
            else
              && [s.queue[0]] + t.queue == s.queue && t.taken == s.taken + [s.queue[0]] && t.active == s.active + 1
              && (if t.queue == [] then t.threads == s.threads[w := Busy(s.queue[0])]
                  else WokenOne(s.threads[w := Busy(s.queue[0])], t.threads))
              && t == s.(queue := t.queue, taken := t.taken, active := t.active, threads := t.threads)
  {
    if |s.queue| > 1 {
      assert Signals(s.threads[w := Busy(s.queue[0])], wake);
      SignalWakes(s.threads[w := Busy(s.queue[0])], wake);
    }
  }

  /** In every run the number of workers keeps to its bounds, none is active that is not there, the requests put in
      the queue are taken in their order, and no wakeup is lost. */
  lemma AlwaysSound(s: State, steps: seq<Step>, t: State)
    requires Startup(s) && IsRun(s, steps, t)
    ensures s.min <= t.count <= s.max && t.active <= t.count && t.taken + t.queue == t.enqueued == Requests(steps)
    ensures t.queue != [] ==> NoSleeper(t.threads) || exists w | w in t.threads :: t.threads[w] == Ready
    ensures s.min >= 1 ==> Attended(t)
  {
    StartupInv(s);
    RunKeepsInv(s, steps, t);
    RunEnqueues(s, steps, t);
    ActiveAtMostCount(t);
    if s.min >= 1 { InvAttended(t); }
  }

  lemma StartupInv(s: State)
    requires Startup(s)
    ensures Inv(s)
  {
    assert BusyOf(s.threads) == {};
  }

  // Whether a request that waits will be served.

  /** While a request waits there is a worker, and it is not asleep. */
  predicate Attended(s: State) {
    s.queue != [] ==> exists t | t in s.threads :: !s.threads[t].Asleep?
  }

  lemma InvAttended(s: State)
    requires Inv(s) && s.min >= 1
    ensures Attended(s)
  {
    if s.queue != [] && NoSleeper(s.threads) {
      assert s.threads.Keys != {};
      var t :| t in s.threads.Keys;
      assert !s.threads[t].Asleep?;
    }
  }

  ghost predicate AlwaysAttended(min: nat, max: nat) {
    forall s, steps, t | Startup(s) && s.min == min && s.max == max && IsRun(s, steps, t) :: Attended(t)
  }

  function Fresh(max: nat): State { State(0, max, [], 0, 0, map[], [], []) }

  /** The one worker of a pool times out, and leaves although a request has come meanwhile. */
  function Stranding(): seq<Step> {
    [Enqueue(1, 0, None), Look(0, None), Finish(0), Look(0, None), Timeout(0), Enqueue(2, 9, None), Expire(0, None)]
  }

  /** A run made longer by a step. */
  lemma {:induction false} RunSnoc(s: State, steps: seq<Step>, t: State, step: Step)
    requires IsRun(s, steps, t) && Enabled(t, step)
    ensures IsRun(s, steps + [step], Do(t, step))
    decreases |steps|
  {
    hide Enabled, Do;
    if steps == [] {
      assert [step][1..] == [];
      assert IsRun(Do(s, step), [], Do(t, step));
    } else {
      assert (steps + [step])[1..] == steps[1..] + [step];
      RunSnoc(Do(s, steps[0]), steps[1..], t, step);
    }
  }

  /** The states of that run, one by one. */
  function Strand(max: nat): seq<State> {
    [Fresh(max),
     State(0, max, [1], 1, 0, map[0 := Ready], [1], []),
     State(0, max, [], 1, 1, map[0 := Busy(1)], [1], [1]),
     State(0, max, [], 1, 0, map[0 := Ready], [1], [1]),
     State(0, max, [], 1, 0, map[0 := Asleep(true)], [1], [1]),
     State(0, max, [], 1, 0, map[0 := TimedOut], [1], [1]),
     State(0, max, [2], 1, 0, map[0 := TimedOut], [1, 2], [1]),
     State(0, max, [2], 0, 0, map[], [1, 2], [1])]
  }

  ghost predicate Linked(s: State, step: Step, t: State) { Enabled(s, step) && Do(s, step) == t }

  lemma StrandServes(max: nat)
    requires max >= 1
    ensures forall i | 0 <= i < 3 :: Linked(Strand(max)[i], Stranding()[i], Strand(max)[i + 1])
  {
    var s, r := Strand(max), Stranding();
    assert Do(s[0], r[0]).threads == s[1].threads;
    assert Do(s[1], r[1]).threads == s[2].threads;
    assert Do(s[2], r[2]).threads == s[3].threads;
  }

  lemma StrandLeaves(max: nat)
    requires max >= 1
    ensures forall i | 3 <= i < 7 :: Linked(Strand(max)[i], Stranding()[i], Strand(max)[i + 1])
  {
    var s, r := Strand(max), Stranding();
    assert Do(s[3], r[3]).threads == s[4].threads;
    assert Do(s[4], r[4]).threads == s[5].threads;
    assert Do(s[5], r[5]).threads == s[6].threads;
    assert Do(s[6], r[6]).threads == s[7].threads;
  }

  lemma {:induction false} LinkedRun(states: seq<State>, steps: seq<Step>)
    requires |states| == |steps| + 1 && forall i | 0 <= i < |steps| :: Linked(states[i], steps[i], states[i + 1])
    ensures IsRun(states[0], steps, states[|steps|])
    decreases |steps|
  {
    if steps != [] {
      assert Linked(states[0], steps[0], states[0 + 1]);
      forall i | 0 <= i < |steps| - 1 ensures Linked(states[1..][i], steps[1..][i], states[1..][i + 1]) {
        assert Linked(states[i + 1], steps[i + 1], states[i + 1 + 1]);
      }
      hide Linked;
      LinkedRun(states[1..], steps[1..]);
    }
  }

  /** Without a least number of workers a request can be left with no worker at all. */
  lemma Stranded(max: nat)
    requires max >= 1
    ensures var t := State(0, max, [2], 0, 0, map[], [1, 2], [1]);
            Startup(Fresh(max)) && IsRun(Fresh(max), Stranding(), t) && !Attended(t)
  {
    StrandServes(max);
    StrandLeaves(max);
    hide Linked;
    LinkedRun(Strand(max), Stranding());
  }

  /** In every run a waiting request has a worker that is not asleep, if and only if the least number of
      workers is not 0. */
  lemma AlwaysAttendedIff(min: nat, max: nat)
    requires min <= max
    ensures AlwaysAttended(min, max) <==> min >= 1
  {
    if min >= 1 {
      forall s, steps, t | Startup(s) && s.min == min && s.max == max && IsRun(s, steps, t) ensures Attended(t) {
        StartupInv(s);
        RunKeepsInv(s, steps, t);
        InvAttended(t);
      }
    } else if max >= 1 {
      Stranded(max);
      assert Fresh(max).min == min && Fresh(max).max == max;
    } else {
      var t := State(0, 0, [1], 0, 0, map[], [1], []);
      assert Do(Fresh(0), Enqueue(1, 0, None)) == t;
      RunSnoc(Fresh(0), [], Fresh(0), Enqueue(1, 0, None));
      assert Startup(Fresh(0)) && !Attended(t) && IsRun(Fresh(0), [Enqueue(1, 0, None)], t);
    }
  }

  /** Steps that the workers take by themselves. */
  predicate ByWorkers(steps: seq<Step>) {
    forall i | 0 <= i < |steps| :: steps[i].Look? || steps[i].Expire? || steps[i].Finish?
  }

  /** From `s` the workers, left to themselves, take the request that has waited longest. */
  ghost predicate Servable(s: State) {
    exists steps, t :: IsRun(s, steps, t) && ByWorkers(steps) && s.queue != [] && t.taken == s.taken + [s.queue[0]]
  }

  lemma ServableAfter(s: State, step: Step)
    requires Enabled(s, step) && ByWorkers([step]) && s.queue != []
    requires Do(s, step).queue == s.queue && Do(s, step).taken == s.taken && Servable(Do(s, step))
    ensures Servable(s)
  {
    var u := Do(s, step);
    var steps, t :| IsRun(u, steps, t) && ByWorkers(steps) && t.taken == u.taken + [u.queue[0]];
    hide Enabled, Do;
    var all := [step] + steps;
    assert all[0] == step && all[1..] == steps;
    assert IsRun(s, all, t);
  }

  /** A sleeper for a signal to wake, if there is one. */
  lemma SomeSignal(threads: map<nat, Mode>) returns (wake: Option<nat>)
    ensures Signals(threads, wake)
  {
    if NoSleeper(threads) {
      wake := None;
    } else {
      var t :| t in threads && threads[t].Asleep?;
      wake := Some(t);
    }
  }

  lemma LookServes(s: State, t: nat)
    requires Inv(s) && s.queue != [] && t in s.threads
    requires s.threads[t] == Ready || (s.threads[t] == TimedOut && s.count == s.min)
    ensures Servable(s)
  {
    var wake := SomeSignal(s.threads);
    var step := if s.threads[t] == Ready then Look(t, wake) else Expire(t, wake);
    assert Enabled(s, step) && Do(s, step).taken == s.taken + [s.queue[0]];
    hide Enabled, Do;
    RunSnoc(s, [], s, step);
    assert [] + [step] == [step];
  }

  /** A waiting request can always be served by the workers that there are, if there is a least number. */
  lemma {:induction false} WaitingServed(s: State)
    requires Inv(s) && s.min >= 1 && s.queue != []
    ensures Servable(s)
    decreases s.count
  {
    if t :| t in s.threads && s.threads[t] == Ready {
      LookServes(s, t);
    } else {
      InvAttended(s);
      var t :| t in s.threads && !s.threads[t].Asleep?;
      if s.threads[t].Busy? {
        assert t in BusyOf(s.threads);
        FinishKeeps(s, t);
        LookServes(Do(s, Finish(t)), t);
        ServableAfter(s, Finish(t));
      } else if s.count == s.min {
        LookServes(s, t);
      } else {
        ExitKeeps(s, t);
        WaitingServed(Exited(s, t));
        ServableAfter(s, Expire(t, None));
      }
    }
  }

  /** Right after a request has been queued there is a worker that is not busy, or the pool is full. */
  lemma EnqueueIsPrompt(s: State, x: nat, newId: nat, wake: Option<nat>)
    requires Inv(s) && Enabled(s, Enqueue(x, newId, wake))
    ensures var t := Do(s, Enqueue(x, newId, wake)); t.active < t.count || t.count == t.max
  {
    ActiveAtMostCount(s);
  }

  /** While a request waits there is a worker that is not busy, or the pool is full. */
  predicate Prompt(s: State) { s.queue != [] ==> s.active < s.count || s.count == s.max }

  /** When a worker takes a request and leaves others, that holds if and only if it held already with one
      worker to spare. */
  lemma TakeIsPromptIff(s: State, t: nat, wake: Option<nat>)
    requires Inv(s) && s.queue != [] && Enabled(s, Look(t, wake))
    ensures Prompt(Do(s, Look(t, wake))) <==> |s.queue| == 1 || s.active + 1 < s.count || s.count == s.max
  {
    LookKeeps(s, t, wake);
    ActiveAtMostCount(s);
  }

  /** Likewise when a worker leaves. */
  lemma ExitIsPromptIff(s: State, t: nat, wake: Option<nat>)
    requires Inv(s) && s.count != s.min && Enabled(s, Expire(t, wake))
    ensures Prompt(Do(s, Expire(t, wake))) <==> s.queue == [] || s.active + 1 < s.count
  {
    ExitKeeps(s, t);
    ActiveAtMostCount(s);
  }

  /** Two requests in a row may start one worker only: the second waits for it, in a pool that could grow. */
  lemma BurstWaits()
    ensures var s := State(0, 2, [], 0, 0, map[], [], []);
            exists t :: Startup(s) && IsRun(s, [Enqueue(1, 0, None), Enqueue(2, 1, None), Look(0, None)], t) && !Prompt(t)
  {
    var s := State(0, 2, [], 0, 0, map[], [], []);
    var s1 := Do(s, Enqueue(1, 0, None));
    var s2 := Do(s1, Enqueue(2, 1, None));
    assert s2.queue == [1, 2] && s2.threads == map[0 := Ready];
    var s3 := Do(s2, Look(0, None));
    var three: seq<Step> := [Look(0, None)];
    var two := [Enqueue(2, 1, None)] + three;
    var one := [Enqueue(1, 0, None)] + two;
    assert three[1..] == [] && two[1..] == three && one[1..] == two;
    assert IsRun(s2, three, s3);
    assert IsRun(s1, two, s3);
    assert IsRun(s, one, s3);
    assert one == [Enqueue(1, 0, None), Enqueue(2, 1, None), Look(0, None)];
  }

  /** The pool as the threads share it.  Where the threads are is ghost state. */
  class WorkerPool {
    const min: nat
    const max: nat
    var queue: seq<nat>
    var count: nat
    var active: nat
    ghost var threads: map<nat, Mode>
    ghost var enqueued: seq<nat>
    ghost var taken: seq<nat>

    ghost function View(): State
      reads this
    {
      State(min, max, queue, count, active, threads, enqueued, taken)
    }

    /** `pound_http_enqueue` */
    method Put(request: nat, ghost newId: nat, ghost wake: Option<nat>)
      requires Inv(View()) && Enabled(View(), Enqueue(request, newId, wake))
      modifies this
      ensures Inv(View()) && View() == Do(old(View()), Enqueue(request, newId, wake))
    {
      StepKeepsInv(View(), Enqueue(request, newId, wake));
      hide Inv;
      queue := queue + [request];
      enqueued := enqueued + [request];
      if count < max && count == active {
        count := count + 1;
        threads := threads[newId := Ready];
      }
      threads := Signalled(threads, wake);
    }

    /** One look of `pound_http_dequeue` at the queue; without a request the worker goes to sleep. */
    method Get(ghost t: nat, ghost wake: Option<nat>) returns (r: Option<nat>)
      requires Inv(View()) && Enabled(View(), Look(t, wake))
      modifies this
      ensures Inv(View()) && View() == Do(old(View()), Look(t, wake))
      ensures r == if old(queue) == [] then None else Some(old(queue)[0])
    {
      StepKeepsInv(View(), Look(t, wake));
      hide Inv;
      r := LookAtQueue(t, wake);
    }

    method LookAtQueue(ghost t: nat, ghost wake: Option<nat>) returns (r: Option<nat>)
      modifies this
      ensures View() == Looked(old(View()), t, wake)
      ensures r == if old(queue) == [] then None else Some(old(queue)[0])
    {
      if queue == [] {
        threads := threads[t := Asleep(count != min)];
        return None;
      }
      r := Some(queue[0]);
      queue := queue[1..];
      taken := taken + [r.value];
      threads := threads[t := Busy(r.value)];
      if queue != [] { threads := Signalled(threads, wake); }
      active := active + 1;
    }

    /** The end of a timed wait: the worker leaves unless the pool is at its minimum. */
    method GetLate(ghost t: nat, ghost wake: Option<nat>) returns (leaves: bool, r: Option<nat>)
      requires Inv(View()) && Enabled(View(), Expire(t, wake))
      modifies this
      ensures Inv(View()) && View() == Do(old(View()), Expire(t, wake))
      ensures leaves == (old(count) != min)
      ensures r == if leaves || old(queue) == [] then None else Some(old(queue)[0])
    {
      StepKeepsInv(View(), Expire(t, wake));
      assert count >= min;
      hide Inv;
      leaves, r := count != min, None;
      if leaves {
        count := count - 1;
        threads := threads - {t};
      } else {
        r := LookAtQueue(t, wake);
      }
    }

    /** `active_threads_decr` */
    method Done(ghost t: nat)
      requires Inv(View()) && Enabled(View(), Finish(t))
      modifies this
      ensures Inv(View()) && View() == Do(old(View()), Finish(t))
    {
      StepKeepsInv(View(), Finish(t));
      hide Inv;
      active := active - 1;
      threads := threads[t := Ready];
    }
  }
}
