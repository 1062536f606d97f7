/** Weighted random choice and the weight-ordered balancers of a service (src/svc.c). */
module WeightedRandom {
  import opened Options
  import opened Balancers

  /** The draw falls on the backend at i: the draws are dealt out in list order, each active
      backend taking as many as its priority. */
  predicate Lands(bs: seq<Backend>, draw: int, i: int) {
    && 0 <= i < |bs| && bs[i].Active()
    && ActiveSum(bs[..i]) <= draw < ActiveSum(bs[..i]) + bs[i].priority
  }

  function Drawn(bs: seq<Backend>, draw: nat): (r: Option<nat>)
    ensures r.Some? ==> Lands(bs, draw, r.value)
    ensures r.None? <==> draw >= ActiveSum(bs)
  {
    if bs == [] then None else
      var n := |bs| - 1;
      var r := Drawn(bs[..n], draw);
      if r.Some? then
        assert bs[..n][..r.value] == bs[..r.value];
        r
      else if bs[n].Active() && draw < ActiveSum(bs) then Some(n) else None
  }

  lemma {:induction false} SumMonotone(bs: seq<Backend>, i: nat, j: nat)
    requires i <= j <= |bs|
    ensures ActiveSum(bs[..i]) <= ActiveSum(bs[..j])
    ensures i < j && bs[i].Active() ==> ActiveSum(bs[..i]) + bs[i].priority <= ActiveSum(bs[..j])
    decreases j - i
  {
    if i < j {
      SumMonotone(bs, i, j - 1);
      assert bs[..j][..j - 1] == bs[..j - 1];
    }
  }

  lemma LandsUnique(bs: seq<Backend>, draw: int, i: int, j: int)
    requires Lands(bs, draw, i) && Lands(bs, draw, j)
    ensures i == j
  {
    if i < j {
      SumMonotone(bs, i, j);
    } else if j < i {
      SumMonotone(bs, j, i);
    }
  }

  /** Draws out of [0, sum) that select the backend at i. */
  ghost function DrawsFor(bs: seq<Backend>, i: nat): set<int> {
    set d | 0 <= d < ActiveSum(bs) && Drawn(bs, d) == Some(i)
  }

  ghost function Interval(lo: int, hi: int): (s: set<int>)
    requires lo <= hi
    ensures forall d :: d in s <==> lo <= d < hi
    ensures |s| == hi - lo
    decreases hi - lo
  {
    if lo == hi then {} else Interval(lo, hi - 1) + {hi - 1}
  }

  /** Exactly `priority` of the possible draws land on an active backend, none on others. */
  lemma DrawsPerBackend(bs: seq<Backend>, i: nat)
    requires i < |bs|
    ensures |DrawsFor(bs, i)| == if bs[i].Active() then bs[i].priority else 0
  {
    var lo := ActiveSum(bs[..i]);
    var hi := lo + if bs[i].Active() then bs[i].priority else 0;
    SumMonotone(bs, i, |bs|);
    assert bs[..|bs|] == bs;
    forall d: int ensures d in DrawsFor(bs, i) <==> lo <= d < hi {
      if lo <= d < hi {
        LandsUnique(bs, d, Drawn(bs, d).value, i);
      }
    }
    assert DrawsFor(bs, i) == Interval(lo, hi);
  }

  /** The loop of `rand_select`, for a draw already made. */
  method Select(bs: seq<Backend>, draw: nat) returns (be: Option<nat>)
    requires ActiveSum(bs) <= INT_MAX
    ensures be == Drawn(bs, draw)
  {
    var pri: int := draw;
    var i := 0;
    while i < |bs|
      invariant 0 <= i <= |bs|
      invariant pri == draw - ActiveSum(bs[..i]) && pri >= 0
    {
      assert bs[..i + 1][..i] == bs[..i];
      SumMonotone(bs, i, |bs|);
      assert bs[..|bs|] == bs;
      if bs[i].Active() {
        pri := pri - bs[i].priority;
        if pri < 0 {
          LandsUnique(bs, draw, Drawn(bs, draw).value, i);
          return Some(i);
        }
      }
      i := i + 1;
    }
    assert bs[..i] == bs;
    return None;
  }
}

module Tiers {
  import opened Options
  import opened Balancers
  import opened InterleavedRoundRobin
  import WeightedRandom

  const BALANCER_WEIGHT_MAX := 65535

  /** What a selection reads of a balancer. */
  datatype Tier = Tier(weight: int, algo: Algo, bs: seq<Backend>, maxPri: nat, cursor: Cursor)

  ghost function TierOf(bal: Balancer): Tier
    requires Ready(bal)
    reads bal
  {
    Tier(bal.weight, bal.algo, bal.backends, bal.maxPri, if bal.cur.None? then Cursor(0, 0) else CursorOf(bal))
  }

  ghost predicate Ready(bal: Balancer)
    reads bal
  {
    && bal.round >= 0 && bal.maxPri >= 0 && (bal.cur.Some? ==> bal.cur.value < |bal.backends|)
    && bal.actNum == ActiveCount(bal.backends)
    && (bal.algo.Random? ==> bal.sumPri == ActiveSum(bal.backends) <= INT_MAX)
  }

  /** A call on this balancer returns a backend. */
  predicate Yields(t: Tier) {
    if |t.bs| == 1 then t.bs[0].Active() else Eligible(t.bs)
  }

  /** A call on this balancer does not return: the list is empty, or round robin has nothing
      to select among several backends. */
  predicate Blocks(t: Tier) {
    t.bs == [] || (|t.bs| >= 2 && t.algo.Iwrr? && !Eligible(t.bs))
  }

  datatype Outcome = Picked(tier: nat, be: nat) | Nothing | Blocked(tier: nat)

  /** `service_lb_select_backend`: the balancers are asked in list order. */
  function Choose(tiers: seq<Tier>, draws: seq<nat>, from: nat): (o: Outcome)
    requires from <= |tiers| == |draws|
    requires forall i | 0 <= i < |tiers| && tiers[i].bs != [] :: On(tiers[i].bs, tiers[i].cursor)
    decreases |tiers| - from
  {
    if from == |tiers| then Nothing
    else
      var t := tiers[from];
      if Blocks(t) then Blocked(from)
      else if |t.bs| == 1 then
        if t.bs[0].Active() then Picked(from, 0) else Choose(tiers, draws, from + 1)
      else if t.algo.Iwrr? then Picked(from, Selected(t.bs, t.maxPri, t.cursor))
      else
        match WeightedRandom.Drawn(t.bs, draws[from])
        case Some(be) => Picked(from, be)
        case None => Choose(tiers, draws, from + 1)
  }

  /** A draw is below the sum of priorities; for sums below 2 it is 0. */
  predicate FairDraw(t: Tier, draw: nat) {
    draw < ActiveSum(t.bs) || draw == 0
  }

  predicate WellPosed(tiers: seq<Tier>, draws: seq<nat>) {
    && |tiers| == |draws|
    && (forall i | 0 <= i < |tiers| && tiers[i].bs != [] :: On(tiers[i].bs, tiers[i].cursor))
    && (forall i | 0 <= i < |tiers| :: FairDraw(tiers[i], draws[i]))
  }

  lemma {:induction false} EligibleIffSum(bs: seq<Backend>)
    ensures Eligible(bs) <==> ActiveSum(bs) > 0
  {
    if bs != [] {
      var n := |bs| - 1;
      EligibleIffSum(bs[..n]);
      if Eligible(bs[..n]) {
        var k :| 0 <= k < n && EligibleAt(bs[..n], k);
        assert EligibleAt(bs, k);
      } else if EligibleAt(bs, n) {
      } else {
        forall k | 0 <= k < |bs| ensures !EligibleAt(bs, k) {
          if k < n { assert !EligibleAt(bs[..n], k); }
        }
      }
    }
  }

  /** Backends that serve: enabled and, if regular, alive; a matrix never does. */
  predicate Serves(b: Backend) { !b.disabled && !b.kind.Matrix? && (b.kind.Regular? ==> b.alive) }

  /** What a balancer yields: its only backend, the one that the draw falls on, or the next in turn. */
  predicate Rightly(t: Tier, draw: nat, be: nat) {
    && be < |t.bs| && Serves(t.bs[be])
    && (|t.bs| >= 2 && t.algo.Random? ==> WeightedRandom.Lands(t.bs, draw, be))
    && (|t.bs| >= 2 && t.algo.Iwrr? ==>
          On(t.bs, t.cursor) && Eligible(t.bs) && Picks(t.bs, t.maxPri, t.cursor, 1) == [be])
  }

  lemma PickOne(bs: seq<Backend>, maxPri: nat, c: Cursor)
    requires On(bs, c) && Eligible(bs)
    ensures Picks(bs, maxPri, c, 1) == [Selected(bs, maxPri, c)]
  {
    assert Picks(bs, maxPri, AfterSelect(bs, maxPri, c), 0) == [];
  }

  lemma ActiveServes(b: Backend)
    ensures b.Active() <==> Serves(b)
  {
  }

  /** Exactly when and what a service selects: the first balancer that can yield a backend
      yields the right one, provided no balancer before it blocks; the call fails to return
      exactly when a blocking balancer comes before every yielding one. */
  lemma {:induction false} ChooseExactly(tiers: seq<Tier>, draws: seq<nat>, from: nat)
    requires from <= |tiers| && WellPosed(tiers, draws)
    ensures var o := Choose(tiers, draws, from);
            match o
            case Picked(i, be) =>
              && from <= i < |tiers| && Yields(tiers[i]) && Rightly(tiers[i], draws[i], be) && tiers[i].bs[be].Active()
              && forall j | from <= j < i :: !Yields(tiers[j]) && !Blocks(tiers[j])
            case Nothing => forall j | from <= j < |tiers| :: !Yields(tiers[j]) && !Blocks(tiers[j])
            case Blocked(i) =>
              && from <= i < |tiers| && Blocks(tiers[i])
              && forall j | from <= j < i :: !Yields(tiers[j]) && !Blocks(tiers[j])
    decreases |tiers| - from
  {
    if from < |tiers| {
      var t := tiers[from];
      EligibleIffSum(t.bs);
      ChooseExactly(tiers, draws, from + 1);
      if !Blocks(t) && |t.bs| >= 2 && t.algo.Iwrr? { PickOne(t.bs, t.maxPri, t.cursor); }
    }
  }

  /** Nothing before tier `i` yields or blocks, and it has several backends of which some can be selected. */
  predicate Reached(tiers: seq<Tier>, i: nat) {
    && i < |tiers| && |tiers[i].bs| >= 2 && Eligible(tiers[i].bs)
    && forall j | 0 <= j < i :: !Yields(tiers[j]) && !Blocks(tiers[j])
  }

  /** The first tier that yields is the one that serves. */
  lemma ReachedServes(tiers: seq<Tier>, draws: seq<nat>, i: nat)
    requires WellPosed(tiers, draws) && Reached(tiers, i)
    ensures var o := Choose(tiers, draws, 0); o.Picked? && o.tier == i && Rightly(tiers[i], draws[i], o.be)
  {
    ChooseExactly(tiers, draws, 0);
    hide Choose, Rightly;
  }

  /** The choice for another draw at tier `i`. */
  function ChooseWith(tiers: seq<Tier>, draws: seq<nat>, i: nat, draw: nat): Outcome
    requires WellPosed(tiers, draws) && i < |tiers|
  {
    Choose(tiers, draws[i := draw], 0)
  }

  /** The draws for tier `i` with which the service selects its backend `be`. */
  ghost function ServiceDraws(tiers: seq<Tier>, draws: seq<nat>, i: nat, be: nat): set<int>
    requires WellPosed(tiers, draws) && i < |tiers|
  {
    set d | 0 <= d < ActiveSum(tiers[i].bs) && ChooseWith(tiers, draws, i, d) == Picked(i, be)
  }

  /** Of the draws for the random tier that is reached, exactly `priority` many select each active backend. */
  lemma DrawsPerService(tiers: seq<Tier>, draws: seq<nat>, i: nat, be: nat)
    requires WellPosed(tiers, draws) && Reached(tiers, i) && tiers[i].algo.Random? && be < |tiers[i].bs|
    ensures |ServiceDraws(tiers, draws, i, be)| == if Serves(tiers[i].bs[be]) then tiers[i].bs[be].priority else 0
  {
    hide Choose, Serves;
    var bs := tiers[i].bs;
    forall d | 0 <= d < ActiveSum(bs)
      ensures ChooseWith(tiers, draws, i, d) == Picked(i, be) <==> WeightedRandom.Drawn(bs, d) == Some(be)
    {
      ReachedServes(tiers, draws[i := d], i);
      WeightedRandom.LandsUnique(bs, d, WeightedRandom.Drawn(bs, d).value, Choose(tiers, draws[i := d], 0).be);
    }
    assert ServiceDraws(tiers, draws, i, be) == WeightedRandom.DrawsFor(bs, be);
    WeightedRandom.DrawsPerBackend(bs, be);
    ActiveServes(bs[be]);
  }

  // Calls in a row.

  /** The balancers after a call. */
  function Afterwards(tiers: seq<Tier>, o: Outcome): seq<Tier> {
    if o.Picked? && o.tier < |tiers| then tiers[o.tier := Moved(tiers[o.tier])] else tiers
  }

  /** What consecutive calls pick, one for each list of draws. */
  function Calls(tiers: seq<Tier>, draws: seq<seq<nat>>): (os: seq<Outcome>)
    requires forall k | 0 <= k < |draws| :: WellPosed(tiers, draws[k])
    ensures |os| == |draws|
    decreases |draws|
  {
    if draws == [] then []
    else
      assert WellPosed(tiers, draws[0]);
      var o := Choose(tiers, draws[0], 0);
      StillPosed(tiers, draws, o);
      [o] + Calls(Afterwards(tiers, o), draws[1..])
  }

  lemma StillPosed(tiers: seq<Tier>, draws: seq<seq<nat>>, o: Outcome)
    requires forall k | 0 <= k < |draws| :: WellPosed(tiers, draws[k])
    ensures forall k | 0 <= k < |draws| :: WellPosed(Afterwards(tiers, o), draws[k])
  {
    var after := Afterwards(tiers, o);
    assert forall i | 0 <= i < |tiers| :: after[i].bs == tiers[i].bs;
    assert forall i | 0 <= i < |tiers| && tiers[i].bs != [] && On(tiers[i].bs, tiers[i].cursor) ::
        On(after[i].bs, after[i].cursor);
    hide Moved, On;
  }

  /** A round robin tier that is reached serves consecutive calls as its own list prescribes. */
  lemma {:induction false} CallsInTurn(tiers: seq<Tier>, draws: seq<seq<nat>>, i: nat, k: nat)
    requires forall l | 0 <= l < |draws| :: WellPosed(tiers, draws[l])
    requires Reached(tiers, i) && tiers[i].algo.Iwrr? && On(tiers[i].bs, tiers[i].cursor) && k < |draws|
    ensures Calls(tiers, draws)[k] ==
              Picked(i, Picks(tiers[i].bs, tiers[i].maxPri, tiers[i].cursor, |draws|)[k])
    decreases |draws|
  {
    var t, o := tiers[i], Choose(tiers, draws[0], 0);
    var after := Afterwards(tiers, o);
    assert WellPosed(tiers, draws[0]);
    ReachedServes(tiers, draws[0], i);
    PickOne(t.bs, t.maxPri, t.cursor);
    hide Choose, Yields, Blocks;
    if k > 0 {
      StillPosed(tiers, draws, o);
      assert after[i] == t.(cursor := AfterSelect(t.bs, t.maxPri, t.cursor));
      CallsInTurn(after, draws[1..], i, k - 1);
    }
  }

  /** How often consecutive calls pick backend `be` of tier `i`. */
  function Times(os: seq<Outcome>, i: nat, be: nat): nat {
    if os == [] then 0 else (if os[0] == Picked(i, be) then 1 else 0) + Times(os[1..], i, be)
  }

  lemma {:induction false} TimesCount(os: seq<Outcome>, ps: seq<nat>, i: nat, be: nat)
    requires |os| == |ps| && forall k | 0 <= k < |os| :: os[k] == Picked(i, ps[k])
    ensures Times(os, i, be) == Count(ps, be)
  {
    if os != [] { TimesCount(os[1..], ps[1..], i, be); }
  }

  /** Exact fairness of the service: of as many calls in a row as the priorities of the active backends add up
      to, each backend of the round robin tier that is reached gets as many as its priority. */
  lemma FairService(tiers: seq<Tier>, draws: seq<seq<nat>>, i: nat, be: nat)
    requires forall l | 0 <= l < |draws| :: WellPosed(tiers, draws[l])
    requires Reached(tiers, i) && tiers[i].algo.Iwrr? && On(tiers[i].bs, tiers[i].cursor) && be < |tiers[i].bs|
    requires tiers[i].maxPri == ActiveMax(tiers[i].bs) && tiers[i].cursor.round <= tiers[i].maxPri
    requires |draws| == ActiveSum(tiers[i].bs)
    ensures Times(Calls(tiers, draws), i, be) == if Serves(tiers[i].bs[be]) then tiers[i].bs[be].priority else 0
  {
    var t := tiers[i];
    forall k | 0 <= k < |draws|
      ensures Calls(tiers, draws)[k] == Picked(i, Picks(t.bs, t.maxPri, t.cursor, |draws|)[k])
    {
      CallsInTurn(tiers, draws, i, k);
    }
    TimesCount(Calls(tiers, draws), Picks(t.bs, t.maxPri, t.cursor, |draws|), i, be);
    Fairness(t.bs, t.maxPri, t.cursor, be);
    ActiveServes(t.bs[be]);
  }


  predicate SortedByWeight(tiers: seq<Tier>) {
    forall i, j | 0 <= i < j < |tiers| :: tiers[i].weight < tiers[j].weight
  }

  predicate HasActive(t: Tier) {
    exists k | 0 <= k < |t.bs| :: t.bs[k].Active()
  }

  /** With random balancers, non-empty lists and positive priorities, selection takes an active
      backend of the lowest-weight balancer that has one; in particular an emergency balancer,
      whose weight is the largest, serves only when nothing else is active. */
  lemma LowestActiveTier(tiers: seq<Tier>, draws: seq<nat>)
    requires WellPosed(tiers, draws) && SortedByWeight(tiers)
    requires forall i | 0 <= i < |tiers| :: tiers[i].algo.Random? && tiers[i].bs != []
    requires forall i, k | 0 <= i < |tiers| && 0 <= k < |tiers[i].bs| :: tiers[i].bs[k].priority >= 1
    ensures var o := Choose(tiers, draws, 0);
            && !o.Blocked?
            && (o.Nothing? <==> forall j | 0 <= j < |tiers| :: !HasActive(tiers[j]))
            && (o.Picked? ==> o.tier < |tiers| && o.be < |tiers[o.tier].bs| && tiers[o.tier].bs[o.be].Active())
            && (o.Picked? ==>
                  forall j | 0 <= j < |tiers| && tiers[j].weight < tiers[o.tier].weight :: !HasActive(tiers[j]))
  {
    ChooseExactly(tiers, draws, 0);
    forall i | 0 <= i < |tiers| ensures Yields(tiers[i]) <==> HasActive(tiers[i]) {
      YieldsIffActive(tiers[i]);
    }
    var o := Choose(tiers, draws, 0);
    if o.Picked? {
      forall j | 0 <= j < |tiers| && tiers[j].weight < tiers[o.tier].weight ensures !HasActive(tiers[j]) {
        assert j < o.tier;
      }
      assert HasActive(tiers[o.tier]);
    }
  }

  lemma YieldsIffActive(t: Tier)
    requires t.bs != [] && forall k | 0 <= k < |t.bs| :: t.bs[k].priority >= 1
    ensures Yields(t) <==> HasActive(t)
  {
    if HasActive(t) {
      var k :| 0 <= k < |t.bs| && t.bs[k].Active();
      assert EligibleAt(t.bs, k);
    }
    if Eligible(t.bs) {
      var k :| 0 <= k < |t.bs| && EligibleAt(t.bs, k);
      assert t.bs[k].Active();
    }
  }

  /** `service_has_backends` looks at all balancers together, so it does not protect the call: a
      round robin balancer of two dead backends blocks the selection of a live one behind it. */
  lemma HasBackendsDoesNotSuffice()
    ensures exists tiers: seq<Tier>, draws: seq<nat> ::
              && WellPosed(tiers, draws) && SortedByWeight(tiers)
              && (exists i | 0 <= i < |tiers| :: ActiveCount(tiers[i].bs) > 0)
              && Choose(tiers, draws, 0).Blocked?
  {
    var dead1, dead2 := Backend(1, Regular, 5, false, false), Backend(2, Regular, 5, false, false);
    var live := Backend(3, Regular, 5, false, true);
    var t0 := Tier(0, Iwrr, [dead1, dead2], 0, Cursor(0, 0));
    var t1 := Tier(BALANCER_WEIGHT_MAX, Iwrr, [live], 5, Cursor(0, 0));
    var tiers, draws := [t0, t1], [0, 0];
    assert [live][..0] == [];
    assert ActiveCount(tiers[1].bs) == 1;
    assert !Eligible(t0.bs);
    assert Choose(tiers, draws, 0) == Blocked(0);
    assert WellPosed(tiers, draws) && SortedByWeight(tiers);
  }

  // The imperative selection.

  /** A balancer that has just supplied a backend: only round robin remembers it. */
  function Moved(t: Tier): Tier
  {
    if t.algo.Iwrr? && |t.bs| >= 2 && Eligible(t.bs) && On(t.bs, t.cursor)
    then t.(cursor := AfterSelect(t.bs, t.maxPri, t.cursor))
    else t
  }

  ghost predicate Distinct(svc: seq<Balancer>) {
    forall i, j | 0 <= i < j < |svc| :: svc[i] != svc[j]
  }

  /** `balancer_select_backend` */
  method SelectFrom(bal: Balancer, draw: nat) returns (be: Option<nat>)
    requires Ready(bal) && !Blocks(TierOf(bal)) && FairDraw(TierOf(bal), draw)
    modifies bal`round, bal`cur
    ensures old(Choose([TierOf(bal)], [draw], 0)) == if be.Some? then Picked(0, be.value) else Nothing
    ensures Ready(bal) && TierOf(bal) == if be.Some? then Moved(old(TierOf(bal))) else old(TierOf(bal))
  {
    ghost var t := TierOf(bal);
    assert Choose([t], [draw], 1) == Nothing;
    if |bal.backends| == 1 {
      if bal.backends[0].Active() { return Some(0); }
      return None;
    }
    if bal.algo.Iwrr? {
      be := InterleavedRoundRobin.Select(bal);
    } else {
      be := WeightedRandom.Select(bal.backends, draw);
    }
  }

  lemma ChooseOne(tiers: seq<Tier>, draws: seq<nat>, i: nat)
    requires WellPosed(tiers, draws) && i < |tiers|
    ensures WellPosed([tiers[i]], [draws[i]]) && FairDraw(tiers[i], draws[i])
    ensures Choose(tiers, draws, i).Blocked? <==>
              Blocks(tiers[i]) || (Choose([tiers[i]], [draws[i]], 0).Nothing? && Choose(tiers, draws, i + 1).Blocked?)
    ensures var o := Choose([tiers[i]], [draws[i]], 0);
            Choose(tiers, draws, i) ==
            match o
            case Picked(_, be) => Picked(i, be)
            case Nothing => Choose(tiers, draws, i + 1)
            case Blocked(_) => Blocked(i)
  {
    assert Choose([tiers[i]], [draws[i]], 1) == Nothing;
  }

  lemma ChooseEnd(tiers: seq<Tier>, draws: seq<nat>)
    requires WellPosed(tiers, draws)
    ensures Choose(tiers, draws, |tiers|) == Nothing
  {
  }

  /** `service_lb_select_backend`, for services on which it returns. */
  method LbSelect(svc: seq<Balancer>, draws: seq<nat>, ghost tiers: seq<Tier>) returns (r: Outcome)
    requires Distinct(svc) && |svc| == |tiers| && WellPosed(tiers, draws)
    requires forall i | 0 <= i < |svc| :: Ready(svc[i]) && TierOf(svc[i]) == tiers[i]
    requires !Choose(tiers, draws, 0).Blocked?
    modifies svc
    ensures r == Choose(tiers, draws, 0)
    ensures forall i | 0 <= i < |svc| :: Ready(svc[i]) && TierOf(svc[i]) == Afterwards(tiers, r)[i]
  {
    hide Choose, Moved, Blocks, Yields, FairDraw;
    var i := 0;
    while i < |svc|
      invariant 0 <= i <= |svc|
      invariant forall k | 0 <= k < |svc| :: Ready(svc[k]) && TierOf(svc[k]) == tiers[k]
      invariant Choose(tiers, draws, i) == Choose(tiers, draws, 0)
    {
      ChooseOne(tiers, draws, i);
      var be := SelectFrom(svc[i], draws[i]);
      if be.Some? { return Picked(i, be.value); }
      i := i + 1;
    }
    ChooseEnd(tiers, draws);
    return Nothing;
  }

  ghost predicate SortedList(list: seq<Balancer>)
  {
    forall i, j | 0 <= i < j < |list| :: list[i].weight < list[j].weight
  }

  /** `balancer_list_get`: find the balancer of this weight or insert a new one in order. */
  method ListGet(list: seq<Balancer>, weight: int, algo: Algo) returns (r: seq<Balancer>, at: nat)
    requires SortedList(list)
    ensures at < |r| && r[at].weight == weight && SortedList(r)
    ensures if exists i | 0 <= i < |list| :: list[i].weight == weight
            then r == list
            else fresh(r[at]) && r[at].algo == algo && r[at].backends == [] && r[..at] + r[at + 1..] == list
  {
    at := 0;
    while at < |list|
      invariant 0 <= at <= |list|
      invariant forall i | 0 <= i < at :: list[i].weight < weight
    {
      if weight == list[at].weight { return list, at; }
      if weight < list[at].weight { break; }
      at := at + 1;
    }
    var bal := new Balancer(weight, algo);
    r := list[..at] + [bal] + list[at..];
    assert r[..at] == list[..at] && r[at + 1..] == list[at..];
  }
}
