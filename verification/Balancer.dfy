/** Backends of one balancer and the aggregates kept about them (src/svc.c).

    A backend is a value in the balancer's list; the list is reassigned when a flag of
    one of its backends changes. */
module Balancers {
  import opened Options

  const INT_MAX: int := 0x7fff_ffff
  const LONG_MAX: int := 0x7fff_ffff_ffff_ffff

  /** Matrix backends are never alive; redirects and the like always are. */
  datatype Kind = Regular | Matrix | Other

  type Priority = p: int | 0 <= p <= INT_MAX

  datatype Backend = Backend(id: nat, kind: Kind, priority: Priority, disabled: bool, alive: bool) {
    predicate IsAlive() {
      match kind
      case Regular => alive
      case Matrix => false
      case Other => true
    }

    predicate Active() { !disabled && IsAlive() }
  }

  datatype Algo = Random | Iwrr

  /** What `cb_backend_disable` does during a recompute. */
  datatype Command = Keep | Disable(id: nat) | Enable(id: nat) | Kill(id: nat)

  function Apply(cmd: Command, b: Backend): Backend {
    match cmd
    case Keep => b
    case Disable(id) => if b.id == id then b.(disabled := true) else b
    case Enable(id) => if b.id == id then b.(disabled := false) else b
    case Kill(id) => if b.id == id && b.kind.Regular? then b.(alive := false) else b
  }

  // The aggregates, defined over the list.

  function ActiveCount(bs: seq<Backend>): nat {
    if bs == [] then 0 else ActiveCount(bs[..|bs| - 1]) + if bs[|bs| - 1].Active() then 1 else 0
  }

  function ActiveSum(bs: seq<Backend>): nat {
    if bs == [] then 0 else ActiveSum(bs[..|bs| - 1]) + if bs[|bs| - 1].Active() then bs[|bs| - 1].priority else 0
  }

  function ActiveMax(bs: seq<Backend>): (m: nat)
    ensures forall i | 0 <= i < |bs| && bs[i].Active() :: bs[i].priority <= m
    ensures m == 0 || exists i | 0 <= i < |bs| :: bs[i].Active() && bs[i].priority == m
  {
    if bs == [] then 0 else
      var front, b := bs[..|bs| - 1], bs[|bs| - 1];
      var m := ActiveMax(front);
      assert m == 0 || exists i | 0 <= i < |front| :: bs[i].Active() && bs[i].priority == m by {
        if m != 0 {
          var i :| 0 <= i < |front| && front[i].Active() && front[i].priority == m;
          assert bs[i] == front[i];
        }
      }
      assert forall i | 0 <= i < |front| :: bs[i] == front[i];
      if b.Active() && m < b.priority then b.priority else m
  }

  /** act_num, and the algorithm's own aggregate, describe the list. */
  ghost predicate Consistent(bs: seq<Backend>, algo: Algo, actNum: int, sumPri: int, maxPri: int) {
    && actNum == ActiveCount(bs)
    && (algo.Random? ==> sumPri == ActiveSum(bs))
    && (algo.Iwrr? ==> maxPri == ActiveMax(bs))
    && Bounded(bs, algo)
  }

  /** No active backend overflows the aggregate of its balancer. */
  ghost predicate Bounded(bs: seq<Backend>, algo: Algo) {
    && (algo.Random? ==> ActiveSum(bs) <= LONG_MAX)
    && (algo.Iwrr? ==> ActiveMax(bs) < INT_MAX)
  }

  /** `pri_update` of the algorithm refuses the backend. */
  predicate Overflows(algo: Algo, sumPri: int, priority: int) {
    if algo.Random? then LONG_MAX - sumPri < priority else priority == INT_MAX
  }

  /** The list after a recompute: the command applied, overflowing backends disabled. */
  function Recomputed(bs: seq<Backend>, algo: Algo, cmd: Command): (r: seq<Backend>)
    ensures |r| == |bs| && Bounded(r, algo)
    ensures forall i | 0 <= i < |bs| :: r[i] == Apply(cmd, bs[i]) || r[i] == Apply(cmd, bs[i]).(disabled := true)
  {
    if bs == [] then [] else
      var r := Recomputed(bs[..|bs| - 1], algo, cmd);
      var b := Admitted(r, algo, Apply(cmd, bs[|bs| - 1]));
      assert (r + [b])[..|r|] == r;
      r + [b]
  }

  /** A backend that would overflow the aggregates of the ones before it is disabled. */
  function Admitted(done: seq<Backend>, algo: Algo, b: Backend): Backend {
    if b.Active() && Overflows(algo, ActiveSum(done), b.priority) then b.(disabled := true) else b
  }

  /** A backend that is alive has no room behind the ones in `done`. */
  predicate Refused(done: seq<Backend>, algo: Algo, b: Backend) {
    b.IsAlive() && Overflows(algo, ActiveSum(done), b.priority)
  }

  /** What a command makes of a backend `b`, behind `done`: disabled, enabled unless refused, killed; every other
      backend is left as it is, or disabled because it is refused. */
  predicate Carried(cmd: Command, algo: Algo, done: seq<Backend>, b: Backend, r: Backend) {
    && (cmd == Disable(b.id) ==> r == b.(disabled := true) && !r.Active())
    && (cmd == Enable(b.id) ==> r == b.(disabled := Refused(done, algo, b)))
    && (cmd == Kill(b.id) && b.kind.Regular? ==> r == b.(alive := false) && !r.Active())
    && (cmd.Keep? || cmd.id != b.id || (cmd.Kill? && !b.kind.Regular?) ==>
          r == if Refused(done, algo, b) then b.(disabled := true) else b)
  }

  ghost predicate CarriedOut(cmd: Command, algo: Algo, bs: seq<Backend>, r: seq<Backend>) {
    |r| == |bs| && forall i | 0 <= i < |bs| :: Carried(cmd, algo, r[..i], bs[i], r[i])
  }

  lemma AdmittedCarried(cmd: Command, algo: Algo, done: seq<Backend>, b: Backend)
    ensures Carried(cmd, algo, done, b, Admitted(done, algo, Apply(cmd, b)))
  {
    hide ActiveSum, Overflows;
  }

  /** A recompute carries out its command on the backend that it names, and on no other. */
  lemma {:induction false} CommandCarriedOut(bs: seq<Backend>, algo: Algo, cmd: Command)
    ensures CarriedOut(cmd, algo, bs, Recomputed(bs, algo, cmd))
  {
    if bs != [] {
      hide Recomputed, Carried, Admitted, Apply;
      var n, r := |bs| - 1, Recomputed(bs, algo, cmd);
      CommandCarriedOut(bs[..n], algo, cmd);
      RecomputedLast(bs, algo, cmd);
      var done := Recomputed(bs[..n], algo, cmd);
      AdmittedCarried(cmd, algo, done, bs[n]);
      assert r[..n] == done;
      forall i | 0 <= i < |bs| ensures Carried(cmd, algo, r[..i], bs[i], r[i]) {
        if i < n { assert Carried(cmd, algo, done[..i], bs[..n][i], done[i]) && r[..i] == done[..i]; }
      }
    }
  }

  lemma ReplaceNext<T>(done: seq<T>, was: seq<T>, i: nat, b: T)
    requires |done| == i < |was|
    ensures (done + was[i..])[i] == was[i]
    ensures (done + was[i..])[i := b] == (done + [b]) + was[i + 1..]
  {
  }

  /** How the aggregates move when one inactive backend changes. */
  lemma {:induction false} FlipActive(bs: seq<Backend>, i: nat, b: Backend)
    requires i < |bs| && !bs[i].Active() && b.priority == bs[i].priority
    ensures ActiveCount(bs[i := b]) == ActiveCount(bs) + if b.Active() then 1 else 0
    ensures ActiveSum(bs[i := b]) == ActiveSum(bs) + if b.Active() then b.priority else 0
    ensures ActiveMax(bs[i := b]) == if b.Active() && ActiveMax(bs) < b.priority then b.priority else ActiveMax(bs)
  {
    var n := |bs| - 1;
    var bs' := bs[i := b];
    if i < n {
      FlipActive(bs[..n], i, b);
      assert bs'[..n] == bs[..n][i := b];
    } else {
      assert bs'[..n] == bs[..n];
    }
  }

  // One balancer over time: the fields that recompute and resurrection touch.

  datatype Aggregates = Aggregates(bs: seq<Backend>, algo: Algo, actNum: int, sumPri: int, maxPri: int)

  datatype Event = Recompute(cmd: Command) | Resurrect(i: nat)

  ghost predicate Sound(s: Aggregates) {
    Consistent(s.bs, s.algo, s.actNum, s.sumPri, s.maxPri)
  }

  predicate Dead(s: Aggregates, i: nat) {
    i < |s.bs| && s.bs[i].kind.Regular? && !s.bs[i].alive
  }

  /** The guard under which reviving the backend at `i` keeps the aggregates exact. */
  predicate Fits(s: Aggregates, i: nat) {
    Dead(s, i) && !s.bs[i].disabled ==> !Overflows(s.algo, s.sumPri, s.bs[i].priority)
  }

  /** `touch_be` adds one backend to the aggregates instead of computing them again. */
  function Revived(s: Aggregates, i: nat): Aggregates
    requires Dead(s, i)
  {
    var b := s.bs[i].(alive := true);
    var t := s.(bs := s.bs[i := b]);
    if b.disabled then t else
      var u := t.(actNum := t.actNum + 1);
      if Overflows(s.algo, s.sumPri, b.priority) then u
      else if s.algo.Random? then u.(sumPri := u.sumPri + b.priority)
      else if u.maxPri < b.priority then u.(maxPri := b.priority) else u
  }

  /** `balancer_pri_init`: the aggregates over no backends. */
  function Cleared(s: Aggregates): Aggregates {
    if s.algo.Random? then s.(bs := [], actNum := 0, sumPri := 0) else s.(bs := [], actNum := 0, maxPri := 0)
  }

  /** One more backend: counted, refused and disabled, or left alone because it is not active. */
  function Tallied(s: Aggregates, b: Backend): Aggregates {
    if !b.Active() then s.(bs := s.bs + [b])
    else if Overflows(s.algo, s.sumPri, b.priority) then s.(bs := s.bs + [b.(disabled := true)])
    else
      s.(bs := s.bs + [b], actNum := s.actNum + 1,
         sumPri := if s.algo.Random? then s.sumPri + b.priority else s.sumPri,
         maxPri := if s.algo.Iwrr? && s.maxPri < b.priority then b.priority else s.maxPri)
  }

  /** `balancer_recompute_pri_unlocked`: the callback and the tally for each backend in turn. */
  function TallyAll(s: Aggregates, bs: seq<Backend>, cmd: Command): (r: Aggregates)
    ensures r.algo == s.algo
  {
    if bs == [] then Cleared(s)
    else Tallied(TallyAll(s, bs[..|bs| - 1], cmd), Apply(cmd, bs[|bs| - 1]))
  }

  function Next(s: Aggregates, e: Event): Aggregates {
    match e
    case Recompute(cmd) => TallyAll(s, s.bs, cmd)
    case Resurrect(i) => if Dead(s, i) then Revived(s, i) else s
  }

  lemma TallyNone(s: Aggregates, cmd: Command)
    ensures TallyAll(s, s.bs[..0], cmd) == Cleared(s)
  {
  }

  lemma TallyNext(s: Aggregates, bs: seq<Backend>, i: nat, cmd: Command)
    requires i < |bs|
    ensures TallyAll(s, bs[..i + 1], cmd) == Tallied(TallyAll(s, bs[..i], cmd), Apply(cmd, bs[i]))
  {
    assert bs[..i + 1][..i] == bs[..i];
  }

  lemma TallySound(s: Aggregates, b: Backend)
    requires Sound(s)
    ensures Sound(Tallied(s, b)) && Tallied(s, b).bs == s.bs + [Admitted(s.bs, s.algo, b)]
  {
    var r := Tallied(s, b);
    assert r.bs[..|s.bs|] == s.bs;
  }

  /** Whatever the aggregates were, a recompute makes them those of the list it leaves. */
  lemma {:induction false} RecomputeSound(s: Aggregates, bs: seq<Backend>, cmd: Command)
    ensures Sound(TallyAll(s, bs, cmd)) && TallyAll(s, bs, cmd).bs == Recomputed(bs, s.algo, cmd)
  {
    if bs != [] {
      hide Sound, Tallied, Admitted;
      var n := |bs| - 1;
      RecomputeSound(s, bs[..n], cmd);
      TallySound(TallyAll(s, bs[..n], cmd), Apply(cmd, bs[n]));
      RecomputedLast(bs, s.algo, cmd);
    }
  }

  /** A dead backend of the greatest priority: reviving it counts it, but its priority is refused. */
  lemma ReviveMiscounts()
    ensures var b := Backend(1, Regular, INT_MAX, false, false);
            var s := Aggregates([b], Iwrr, 0, 0, 0);
            && Sound(s) && Dead(s, 0) && !Fits(s, 0)
            && !Sound(Revived(s, 0)) && Revived(s, 0).actNum == 1 && Revived(s, 0).maxPri == 0
  {
    var b := Backend(1, Regular, INT_MAX, false, false);
    var s := Aggregates([b], Iwrr, 0, 0, 0);
    assert [b][..0] == [];
    ResurrectSoundIff(s, 0);
  }

  /** Reviving a backend keeps the aggregates exact if and only if it fits. */
  lemma ResurrectSoundIff(s: Aggregates, i: nat)
    requires Sound(s) && Dead(s, i)
    ensures Sound(Revived(s, i)) <==> Fits(s, i)
  {
    FlipActive(s.bs, i, s.bs[i].(alive := true));
  }

  ghost predicate Runs(run: seq<Aggregates>, events: seq<Event>) {
    && |run| == |events| + 1
    && (forall j | 0 <= j < |events| :: run[j + 1] == Next(run[j], events[j]))
    && (forall j | 0 <= j < |events| && events[j].Resurrect? :: Fits(run[j], events[j].i))
  }

  /** In every run whose resurrections fit, the aggregates are exact throughout, and from the first recompute
      on even if they were not at the start. */
  lemma {:induction false} RunKeepsAggregates(run: seq<Aggregates>, events: seq<Event>, k: nat)
    requires Runs(run, events) && k < |run|
    requires Sound(run[0]) || exists j | 0 <= j < k :: events[j].Recompute?
    ensures Sound(run[k])
  {
    if k > 0 {
      var s, e := run[k - 1], events[k - 1];
      assert run[k - 1 + 1] == Next(s, e);
      hide Sound, Fits;
      if e.Recompute? {
        RecomputeSound(s, s.bs, e.cmd);
      } else {
        RunKeepsAggregates(run, events, k - 1);
        if Dead(s, e.i) { ResurrectSoundIff(s, e.i); }
      }
    }
  }

  lemma FrontLast<T>(s: seq<T>)
    requires s != []
    ensures s[..|s| - 1] + [s[|s| - 1]] == s
  {
  }

  lemma {:induction false} RecomputedLast(bs: seq<Backend>, algo: Algo, cmd: Command)
    requires bs != []
    ensures var done := Recomputed(bs[..|bs| - 1], algo, cmd);
            Recomputed(bs, algo, cmd) == done + [Admitted(done, algo, Apply(cmd, bs[|bs| - 1]))]
  {
    hide Bounded, Overflows, ActiveSum, ActiveMax;
  }

  lemma {:induction false} LastFits(bs: seq<Backend>, algo: Algo)
    requires bs != [] && Bounded(bs, algo)
    ensures var n := |bs| - 1;
            Bounded(bs[..n], algo) && !(bs[n].Active() && Overflows(algo, ActiveSum(bs[..n]), bs[n].priority))
  {
  }

  /** A list within bounds is left as it is by a recompute without a command. */
  lemma {:induction false} RecomputedBounded(bs: seq<Backend>, algo: Algo)
    requires Bounded(bs, algo)
    ensures Recomputed(bs, algo, Keep) == bs
  {
    if bs == [] {
      assert Recomputed(bs, algo, Keep) == [];
    } else {
      hide Bounded, Overflows, ActiveSum, ActiveMax, Recomputed;
      var n := |bs| - 1;
      LastFits(bs, algo);
      RecomputedBounded(bs[..n], algo);
      RecomputedLast(bs, algo, Keep);
      FrontLast(bs);
    }
  }

  /** Resurrection's incremental update agrees with a full recompute. */
  lemma ResurrectAgreesWithRecompute(s: Aggregates, i: nat)
    requires Sound(s) && Dead(s, i) && Fits(s, i)
    ensures Next(Revived(s, i), Recompute(Keep)) == Revived(s, i)
  {
    var t := Revived(s, i);
    ResurrectSoundIff(s, i);
    RecomputeSound(t, t.bs, Keep);
    RecomputedBounded(t.bs, t.algo);
    OtherKept(t, t.bs, Keep);
  }

  /** A recompute does not touch the aggregate of the other algorithm. */
  lemma {:induction false} OtherKept(s: Aggregates, bs: seq<Backend>, cmd: Command)
    ensures var r := TallyAll(s, bs, cmd); if s.algo.Random? then r.maxPri == s.maxPri else r.sumPri == s.sumPri
  {
    if bs != [] { OtherKept(s, bs[..|bs| - 1], cmd); }
  }

  class Balancer {
    var backends: seq<Backend>
    const algo: Algo
    const weight: int
    var actNum: int
    var sumPri: int
    var maxPri: int
    // Cursor of the IWRR algorithm: `cur` is a position in `backends`.
    var round: int
    var cur: Option<nat>

    constructor (weight: int, algo: Algo)
      ensures this.weight == weight && this.algo == algo && backends == []
      ensures Sound(View()) && cur == None && round == 0
    {
      this.weight, this.algo := weight, algo;
      backends, actNum, sumPri, maxPri, round, cur := [], 0, 0, 0, 0, None;
    }

    ghost function View(): Aggregates
      reads this
    {
      Aggregates(backends, algo, actNum, sumPri, maxPri)
    }

    /** `balancer_pri_update`: true means the backend overflows. */
    method PriUpdate(b: Backend) returns (overflow: bool)
      modifies this`sumPri, this`maxPri
      ensures overflow <==> Overflows(algo, old(sumPri), b.priority)
      ensures sumPri == old(sumPri) + if algo.Random? && !overflow then b.priority else 0
      ensures maxPri == if algo.Iwrr? && !overflow && old(maxPri) < b.priority then b.priority else old(maxPri)
    {
      if algo.Random? {
        if LONG_MAX - sumPri < b.priority { return true; }
        sumPri := sumPri + b.priority;
      } else {
        if b.priority == INT_MAX { return true; }
        if maxPri < b.priority { maxPri := b.priority; }
      }
      return false;
    }

    /** `balancer_recompute_pri_unlocked` with the callback `cmd`.  It establishes the
        aggregates whatever they were before. */
    method Recompute(cmd: Command)
      modifies this`backends, this`actNum, this`sumPri, this`maxPri
      ensures View() == Next(old(View()), Event.Recompute(cmd))
      ensures Sound(View()) && backends == Recomputed(old(backends), algo, cmd)
      ensures CarriedOut(cmd, algo, old(backends), backends)
    {
      hide TallyAll, Tallied, Apply, Sound, Recomputed, CarriedOut;
      ghost var s, was, t := View(), backends, Cleared(View());
      actNum := 0;
      if algo.Random? { sumPri := 0; } else { maxPri := 0; }
      var i := 0;
      TallyNone(s, cmd);
      while i < |backends|
        invariant 0 <= i == |t.bs| <= |was| && backends == t.bs + was[i..]
        invariant t == TallyAll(s, was[..i], cmd) && t == View().(bs := t.bs)
      {
        ReplaceNext(t.bs, was, i, backends[i]);
        TallyNext(s, was, i, cmd);
        var b := RecomputeOne(Apply(cmd, backends[i]), t);
        ReplaceNext(t.bs, was, i, b);
        backends := backends[i := b];
        i, t := i + 1, Tallied(t, Apply(cmd, was[i]));
      }
      assert was[..i] == was && backends == t.bs;
      RecomputeSound(s, was, cmd);
      CommandCarriedOut(was, algo, cmd);
    }

    /** Loop body of `balancer_recompute_pri_unlocked`, after the callback. */
    method RecomputeOne(b: Backend, ghost t: Aggregates) returns (r: Backend)
      requires t == View().(bs := t.bs)
      modifies this`actNum, this`sumPri, this`maxPri
      ensures Tallied(t, b) == View().(bs := t.bs + [r])
    {
      r := b;
      if b.Active() {
        var overflow := PriUpdate(b);
        if overflow {
          r := b.(disabled := true);
        } else {
          actNum := actNum + 1;
        }
      }
    }

    /** `touch_be` after a successful probe of the backend at `i`, as one atomic step. */
    method Revive(i: nat)
      requires i < |backends|
      modifies this`backends, this`actNum, this`sumPri, this`maxPri
      ensures View() == Next(old(View()), Resurrect(i))
      ensures backends == old(backends)[i := old(backends[i]).(alive := old(backends[i]).alive || backends[i].kind.Regular?)]
    {
      var b := backends[i];
      if b.kind.Regular? && !b.alive {
        backends := backends[i := b.(alive := true)];
        if !b.disabled {
          var _ := PriUpdate(b);
          actNum := actNum + 1;
        }
      }
    }
  }
}
