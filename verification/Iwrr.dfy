/** Interleaved weighted round robin (`iwrr_select` in src/svc.c).

    The backend list and `max_pri` are fixed during a run; a cursor is the pair of the
    current round and a position in the list. */
module InterleavedRoundRobin {
  import opened Options
  import opened Balancers

  datatype Cursor = Cursor(round: nat, pos: nat)

  predicate On(bs: seq<Backend>, c: Cursor) { c.pos < |bs| }

  /** The backend under the cursor is selected. */
  predicate Hit(bs: seq<Backend>, c: Cursor) {
    On(bs, c) && bs[c.pos].Active() && c.round < bs[c.pos].priority
  }

  /** Some backend can be selected at all. */
  predicate Eligible(bs: seq<Backend>) {
    exists k | 0 <= k < |bs| :: EligibleAt(bs, k)
  }

  predicate EligibleAt(bs: seq<Backend>, k: int) {
    0 <= k < |bs| && bs[k].Active() && bs[k].priority >= 1
  }

  function NextRound(maxPri: nat, round: nat): (r: nat)
    ensures r <= maxPri
    ensures round < maxPri ==> r == round + 1
    ensures round == maxPri ==> r == 0
  {
    (round + 1) % (maxPri + 1)
  }

  /** To the next backend; past the last one, to the first in the next round. */
  function Advance(bs: seq<Backend>, maxPri: nat, c: Cursor): (r: Cursor)
    requires On(bs, c)
    ensures On(bs, r)
    ensures c.round <= maxPri ==> r.round <= maxPri
  {
    if c.pos + 1 < |bs| then c.(pos := c.pos + 1)
    else Cursor(NextRound(maxPri, c.round), 0)
  }

  function AdvanceBy(bs: seq<Backend>, maxPri: nat, c: Cursor, n: nat): (r: Cursor)
    requires On(bs, c)
    ensures On(bs, r)
    ensures c.round <= maxPri ==> r.round <= maxPri
    decreases n
  {
    if n == 0 then c else AdvanceBy(bs, maxPri, Advance(bs, maxPri, c), n - 1)
  }

  lemma AdvanceNone(bs: seq<Backend>, maxPri: nat, c: Cursor)
    requires On(bs, c)
    ensures AdvanceBy(bs, maxPri, c, 0) == c
  {
  }

  /** Positions selected during n turns of the loop of `iwrr_select`. */
  function Hits(bs: seq<Backend>, maxPri: nat, c: Cursor, n: nat): (r: seq<nat>)
    requires On(bs, c)
    decreases n
  {
    if n == 0 then [] else
      (if Hit(bs, c) then [c.pos] else []) + Hits(bs, maxPri, Advance(bs, maxPri, c), n - 1)
  }

  // Termination.

  /** Rounds left until the eligible backend `k` is passed in round 0.  A recompute may have
      left `round` above `max_pri`. */
  function RoundsLeft(maxPri: nat, c: Cursor, k: nat): nat {
    if c.round > maxPri then maxPri + 2
    else if c.round == 0 && c.pos <= k then 0
    else maxPri + 1 - c.round
  }

  lemma AdvanceProgress(bs: seq<Backend>, maxPri: nat, c: Cursor, k: nat)
    requires On(bs, c) && EligibleAt(bs, k) && !Hit(bs, c)
    ensures var c' := Advance(bs, maxPri, c);
            || RoundsLeft(maxPri, c', k) < RoundsLeft(maxPri, c, k)
            || (RoundsLeft(maxPri, c', k) == RoundsLeft(maxPri, c, k) && c'.pos == c.pos + 1)
  {
    hide NextRound;
  }

  /** Turns of the loop until the next selection, counting the selecting one. */
  function Turns(bs: seq<Backend>, maxPri: nat, c: Cursor, k: nat): (n: nat)
    requires On(bs, c) && EligibleAt(bs, k)
    ensures n >= 1 && Hit(bs, AdvanceBy(bs, maxPri, c, n - 1))
    ensures Hits(bs, maxPri, c, n) == [AdvanceBy(bs, maxPri, c, n - 1).pos]
    ensures Hits(bs, maxPri, c, n - 1) == []
    decreases RoundsLeft(maxPri, c, k), |bs| - c.pos
  {
    if Hit(bs, c) then
      assert Hits(bs, maxPri, Advance(bs, maxPri, c), 0) == [];
      1
    else
      AdvanceProgress(bs, maxPri, c, k);
      1 + Turns(bs, maxPri, Advance(bs, maxPri, c), k)
  }

  lemma TurnsStep(bs: seq<Backend>, maxPri: nat, c: Cursor, k: nat)
    requires On(bs, c) && EligibleAt(bs, k)
    ensures Turns(bs, maxPri, c, k) == if Hit(bs, c) then 1 else 1 + Turns(bs, maxPri, Advance(bs, maxPri, c), k)
  {
  }

  /** The loop ends within (max_pri + 3) passes over the list, wherever it starts. */
  lemma {:induction false} TurnsBound(bs: seq<Backend>, maxPri: nat, c: Cursor, k: nat)
    requires On(bs, c) && EligibleAt(bs, k)
    ensures Turns(bs, maxPri, c, k) <= RoundsLeft(maxPri, c, k) * |bs| + (|bs| - c.pos)
    ensures Turns(bs, maxPri, c, k) <= (maxPri + 3) * |bs|
    decreases RoundsLeft(maxPri, c, k), |bs| - c.pos
  {
    var left := RoundsLeft(maxPri, c, k);
    if !Hit(bs, c) {
      var c' := Advance(bs, maxPri, c);
      AdvanceProgress(bs, maxPri, c, k);
      TurnsBound(bs, maxPri, c', k);
      var left' := RoundsLeft(maxPri, c', k);
      if left' < left {
        MulMonotone(left' + 1, left, |bs|);
      }
    } else {
      MulMonotone(0, left, |bs|);
    }
    MulMonotone(left, maxPri + 2, |bs|);
  }

  lemma MulMonotone(a: int, b: int, n: nat)
    requires a <= b
    ensures a * n <= b * n
    ensures (a - 1) * n + n == a * n && (b + 1) * n == b * n + n
  {
  }

  /** Without an eligible backend no number of turns selects anything: the loop never ends. */
  lemma {:induction false} NeverHits(bs: seq<Backend>, maxPri: nat, c: Cursor, n: nat)
    requires On(bs, c) && !Eligible(bs)
    ensures Hits(bs, maxPri, c, n) == []
    decreases n
  {
    if n > 0 {
      assert !EligibleAt(bs, c.pos);
      NeverHits(bs, maxPri, Advance(bs, maxPri, c), n - 1);
    }
  }

  /** `iwrr_select` returns if and only if some active backend has priority at least 1. */
  lemma TerminatesIffEligible(bs: seq<Backend>, maxPri: nat, c: Cursor)
    requires On(bs, c)
    ensures Eligible(bs) <==> exists n: nat :: Hits(bs, maxPri, c, n) != []
    ensures Eligible(bs) ==> exists n: nat :: n <= (maxPri + 3) * |bs| && Hits(bs, maxPri, c, n) != []
  {
    if Eligible(bs) {
      var k :| 0 <= k < |bs| && EligibleAt(bs, k);
      TurnsBound(bs, maxPri, c, k);
      assert Hits(bs, maxPri, c, Turns(bs, maxPri, c, k)) != [];
    } else {
      forall n: nat ensures Hits(bs, maxPri, c, n) == [] {
        NeverHits(bs, maxPri, c, n);
      }
    }
  }

  // Selections.

  function Witness(bs: seq<Backend>): (k: nat)
    requires Eligible(bs)
    ensures EligibleAt(bs, k)
  {
    if bs[0].Active() && bs[0].priority >= 1 then 0 else
      assert Eligible(bs[1..]) by {
        var k :| 0 <= k < |bs| && EligibleAt(bs, k);
        assert EligibleAt(bs[1..], k - 1);
      }
      Witness(bs[1..]) + 1
  }

  /** Where the cursor stands when one call of `iwrr_select` has returned. */
  function AfterSelect(bs: seq<Backend>, maxPri: nat, c: Cursor): (r: Cursor)
    requires On(bs, c) && Eligible(bs)
    ensures On(bs, r)
    ensures c.round <= maxPri ==> r.round <= maxPri
  {
    AdvanceBy(bs, maxPri, c, Turns(bs, maxPri, c, Witness(bs)))
  }

  function Selected(bs: seq<Backend>, maxPri: nat, c: Cursor): (p: nat)
    requires On(bs, c) && Eligible(bs)
    ensures p < |bs| && bs[p].Active()
  {
    AdvanceBy(bs, maxPri, c, Turns(bs, maxPri, c, Witness(bs)) - 1).pos
  }

  /** The backends chosen by k consecutive calls. */
  function Picks(bs: seq<Backend>, maxPri: nat, c: Cursor, k: nat): (r: seq<nat>)
    requires On(bs, c) && Eligible(bs)
    ensures |r| == k
    decreases k
  {
    if k == 0 then [] else
      [Selected(bs, maxPri, c)] + Picks(bs, maxPri, AfterSelect(bs, maxPri, c), k - 1)
  }

  /** However long the run, only active backends are picked. */
  lemma {:induction false} PicksActive(bs: seq<Backend>, maxPri: nat, c: Cursor, k: nat, i: nat)
    requires On(bs, c) && Eligible(bs) && i < k
    ensures var p := Picks(bs, maxPri, c, k)[i]; p < |bs| && bs[p].Active()
    decreases k
  {
    hide AfterSelect, Selected, Eligible, Witness, Turns;
    if i > 0 {
      PicksActive(bs, maxPri, AfterSelect(bs, maxPri, c), k - 1, i - 1);
    }
  }

  /** A turn that selects nothing only moves the start of the search. */
  lemma PicksSkip(bs: seq<Backend>, maxPri: nat, c: Cursor, k: nat)
    requires On(bs, c) && Eligible(bs) && !Hit(bs, c)
    ensures Picks(bs, maxPri, c, k) == Picks(bs, maxPri, Advance(bs, maxPri, c), k)
  {
    hide Witness, Hits;
    TurnsStep(bs, maxPri, c, Witness(bs));
  }

  lemma PicksHit(bs: seq<Backend>, maxPri: nat, c: Cursor, k: nat)
    requires On(bs, c) && Eligible(bs) && Hit(bs, c)
    ensures Picks(bs, maxPri, c, k + 1) == [c.pos] + Picks(bs, maxPri, Advance(bs, maxPri, c), k)
  {
    assert Turns(bs, maxPri, c, Witness(bs)) == 1;
    assert AdvanceBy(bs, maxPri, c, 1) == AdvanceBy(bs, maxPri, Advance(bs, maxPri, c), 0);
  }

  /** Consecutive calls pick exactly the hits of consecutive turns. */
  lemma {:induction false} PicksAreHits(bs: seq<Backend>, maxPri: nat, c: Cursor, n: nat)
    requires On(bs, c) && Eligible(bs)
    ensures Picks(bs, maxPri, c, |Hits(bs, maxPri, c, n)|) == Hits(bs, maxPri, c, n)
    decreases n
  {
    hide Picks, NextRound, Eligible;
    if n > 0 {
      var c' := Advance(bs, maxPri, c);
      var rest := Hits(bs, maxPri, c', n - 1);
      PicksAreHits(bs, maxPri, c', n - 1);
      if Hit(bs, c) {
        PicksHit(bs, maxPri, c, |rest|);
        assert |[c.pos] + rest| == |rest| + 1;
      } else {
        PicksSkip(bs, maxPri, c, |rest|);
        assert [] + rest == rest;
      }
    }
  }

  /** The positions from `from` on whose backends have a share in this round. */
  function Sharing(bs: seq<Backend>, round: nat, from: nat): (r: seq<nat>)
    requires from <= |bs|
    ensures forall k :: k in r <==> from <= k < |bs| && bs[k].Active() && bs[k].priority > round
    ensures forall i, j | 0 <= i < j < |r| :: r[i] < r[j]
    decreases |bs| - from
  {
    if from == |bs| then []
    else
      var rest := Sharing(bs, round, from + 1);
      assert forall i | 0 <= i < |rest| :: rest[i] in rest && from < rest[i];
      if bs[from].Active() && bs[from].priority > round then [from] + rest else rest
  }

  /** Rounds are interleaved: in each, every active backend of greater priority is selected once, in list order. */
  lemma {:induction false} RoundHits(bs: seq<Backend>, maxPri: nat, c: Cursor)
    requires On(bs, c)
    ensures Hits(bs, maxPri, c, |bs| - c.pos) == Sharing(bs, c.round, c.pos)
    decreases |bs| - c.pos
  {
    if c.pos + 1 < |bs| {
      RoundHits(bs, maxPri, Advance(bs, maxPri, c));
    } else {
      assert Sharing(bs, c.round, |bs|) == [];
      assert Hits(bs, maxPri, Advance(bs, maxPri, c), 0) == [];
    }
  }

  // One full cycle of turns.

  function Count(s: seq<nat>, p: nat): nat {
    if s == [] then 0 else (if s[0] == p then 1 else 0) + Count(s[1..], p)
  }

  /** 1 if the cursor selects `p`, or selects anything when `p` is None. */
  function Score(bs: seq<Backend>, c: Cursor, p: Option<nat>): nat {
    if Hit(bs, c) && (p.None? || p.value == c.pos) then 1 else 0
  }

  function Scores(bs: seq<Backend>, maxPri: nat, c: Cursor, n: nat, p: Option<nat>): nat
    requires On(bs, c)
    decreases n
  {
    if n == 0 then 0 else Score(bs, c, p) + Scores(bs, maxPri, Advance(bs, maxPri, c), n - 1, p)
  }

  lemma ScoresNone(bs: seq<Backend>, maxPri: nat, c: Cursor, p: Option<nat>)
    requires On(bs, c)
    ensures Scores(bs, maxPri, c, 0, p) == 0
  {
  }

  lemma {:induction false} ScoresCountHits(bs: seq<Backend>, maxPri: nat, c: Cursor, n: nat, p: nat)
    requires On(bs, c)
    ensures Count(Hits(bs, maxPri, c, n), p) == Scores(bs, maxPri, c, n, Some(p))
    ensures |Hits(bs, maxPri, c, n)| == Scores(bs, maxPri, c, n, None)
    decreases n
  {
    if n > 0 {
      var rest := Hits(bs, maxPri, Advance(bs, maxPri, c), n - 1);
      ScoresCountHits(bs, maxPri, Advance(bs, maxPri, c), n - 1, p);
      if Hit(bs, c) {
        assert ([c.pos] + rest)[1..] == rest;
      } else {
        assert [] + rest == rest;
      }
    }
  }

  /** Splitting off the last of n + 1 turns. */
  lemma {:induction false} ScoresLast(bs: seq<Backend>, maxPri: nat, c: Cursor, n: nat, p: Option<nat>)
    requires On(bs, c)
    ensures Scores(bs, maxPri, c, n + 1, p) ==
            Scores(bs, maxPri, c, n, p) + Score(bs, AdvanceBy(bs, maxPri, c, n), p)
    decreases n
  {
    if n > 0 {
      ScoresLast(bs, maxPri, Advance(bs, maxPri, c), n - 1, p);
    }
  }

  lemma {:induction false} AdvanceInRound(bs: seq<Backend>, maxPri: nat, c: Cursor, n: nat)
    requires On(bs, c) && c.pos + n <= |bs|
    ensures AdvanceBy(bs, maxPri, c, n) ==
            if c.pos + n < |bs| then c.(pos := c.pos + n) else Cursor(NextRound(maxPri, c.round), 0)
    decreases n
  {
    if n > 0 && c.pos + 1 < |bs| {
      AdvanceInRound(bs, maxPri, Advance(bs, maxPri, c), n - 1);
    } else if n > 0 {
      assert AdvanceBy(bs, maxPri, Advance(bs, maxPri, c), 0) == Advance(bs, maxPri, c);
    }
  }

  lemma {:induction false} AdvanceSplit(bs: seq<Backend>, maxPri: nat, c: Cursor, m: nat, n: nat)
    requires On(bs, c)
    ensures AdvanceBy(bs, maxPri, c, m + n) == AdvanceBy(bs, maxPri, AdvanceBy(bs, maxPri, c, m), n)
    decreases m
  {
    if m > 0 {
      AdvanceSplit(bs, maxPri, Advance(bs, maxPri, c), m - 1, n);
    }
  }

  /** One pass over the list moves the cursor to the same place in the next round. */
  lemma AdvancePass(bs: seq<Backend>, maxPri: nat, c: Cursor)
    requires On(bs, c)
    ensures AdvanceBy(bs, maxPri, c, |bs|) == c.(round := NextRound(maxPri, c.round))
  {
    var m := |bs| - c.pos;
    AdvanceSplit(bs, maxPri, c, m, c.pos);
    AdvanceInRound(bs, maxPri, c, m);
    AdvanceInRound(bs, maxPri, Cursor(NextRound(maxPri, c.round), 0), c.pos);
  }

  /** Turns in k passes over a list of n backends. */
  function Passes(n: nat, k: nat): nat
  {
    if k == 0 then 0 else Passes(n, k - 1) + n
  }

  lemma {:induction false} PassesSplit(n: nat, j: nat, k: nat)
    ensures Passes(n, j + k) == Passes(n, j) + Passes(n, k)
    decreases k
  {
    if k > 0 {
      PassesSplit(n, j, k - 1);
      assert Passes(n, (j + k) - 1) == Passes(n, j + (k - 1));
    }
  }

  lemma {:induction false} AdvancePasses(bs: seq<Backend>, maxPri: nat, c: Cursor, k: nat)
    requires On(bs, c) && c.round + k <= maxPri
    ensures AdvanceBy(bs, maxPri, c, Passes(|bs|, k)) == c.(round := c.round + k)
    decreases k
  {
    if k > 0 {
      hide AdvanceBy, NextRound;
      AdvancePasses(bs, maxPri, c, k - 1);
      AdvanceSplit(bs, maxPri, c, Passes(|bs|, k - 1), |bs|);
      AdvancePass(bs, maxPri, c.(round := c.round + k - 1));
    }
  }

  /** Turns in a cycle. */
  function Period(bs: seq<Backend>, maxPri: nat): nat {
    Passes(|bs|, maxPri + 1)
  }

  /** Up to the last round, over to round 0, and up to the starting round again. */
  lemma CycleReturns(bs: seq<Backend>, maxPri: nat, c: Cursor)
    requires On(bs, c) && c.round <= maxPri
    ensures AdvanceBy(bs, maxPri, c, Period(bs, maxPri)) == c
  {
    hide AdvanceBy, NextRound;
    var up, n := maxPri - c.round, |bs|;
    AdvancePasses(bs, maxPri, c, up);
    AdvancePass(bs, maxPri, c.(round := maxPri));
    AdvancePasses(bs, maxPri, c.(round := 0), c.round);
    PassesSplit(n, up, c.round + 1);
    AdvanceSplit(bs, maxPri, c, Passes(n, up), n + Passes(n, c.round));
    AdvanceSplit(bs, maxPri, c.(round := maxPri), n, Passes(n, c.round));
  }

  /** A cycle scores the same wherever it starts: moving the start by one turn drops the
      first turn and adds the same turn at the end. */
  lemma CycleRotates(bs: seq<Backend>, maxPri: nat, c: Cursor, p: Option<nat>)
    requires On(bs, c) && c.round <= maxPri
    ensures Scores(bs, maxPri, Advance(bs, maxPri, c), Period(bs, maxPri), p) ==
            Scores(bs, maxPri, c, Period(bs, maxPri), p)
  {
    ScoresLast(bs, maxPri, c, Period(bs, maxPri), p);
    CycleReturns(bs, maxPri, c);
  }

  lemma {:induction false} CycleRotatesBy(bs: seq<Backend>, maxPri: nat, c: Cursor, n: nat, p: Option<nat>)
    requires On(bs, c) && c.round <= maxPri
    ensures Scores(bs, maxPri, AdvanceBy(bs, maxPri, c, n), Period(bs, maxPri), p) ==
            Scores(bs, maxPri, c, Period(bs, maxPri), p)
    decreases n
  {
    if n > 0 {
      CycleRotates(bs, maxPri, c, p);
      CycleRotatesBy(bs, maxPri, Advance(bs, maxPri, c), n - 1, p);
    }
  }

  /** Every cursor within the rounds is reached from the first one. */
  lemma ReachedFromStart(bs: seq<Backend>, maxPri: nat, c: Cursor)
    requires On(bs, c) && c.round <= maxPri
    ensures AdvanceBy(bs, maxPri, Cursor(0, 0), Passes(|bs|, c.round) + c.pos) == c
  {
    hide AdvanceBy;
    AdvancePasses(bs, maxPri, Cursor(0, 0), c.round);
    AdvanceSplit(bs, maxPri, Cursor(0, 0), Passes(|bs|, c.round), c.pos);
    AdvanceInRound(bs, maxPri, Cursor(c.round, 0), c.pos);
  }

  // The cycle from the start, round by round.

  /** Score of the rest of the list in one round, independent of the cursor. */
  function RowScore(bs: seq<Backend>, round: nat, from: nat, p: Option<nat>): nat
    requires from <= |bs|
    decreases |bs| - from
  {
    if from == |bs| then 0
    else Score(bs, Cursor(round, from), p) + RowScore(bs, round, from + 1, p)
  }

  lemma {:induction false} ScoresRow(bs: seq<Backend>, maxPri: nat, c: Cursor, n: nat, p: Option<nat>)
    requires On(bs, c) && n >= |bs| - c.pos
    ensures Scores(bs, maxPri, c, n, p) ==
            RowScore(bs, c.round, c.pos, p) +
            Scores(bs, maxPri, Cursor(NextRound(maxPri, c.round), 0), n - (|bs| - c.pos), p)
    decreases |bs| - c.pos
  {
    if c.pos + 1 < |bs| {
      ScoresRow(bs, maxPri, Advance(bs, maxPri, c), n - 1, p);
    } else {
      assert RowScore(bs, c.round, |bs|, p) == 0;
    }
  }

  /** Score of all rounds from `round` on. */
  function TableScore(bs: seq<Backend>, maxPri: nat, round: nat, p: Option<nat>): nat
    decreases maxPri + 1 - round
  {
    if round > maxPri then 0 else RowScore(bs, round, 0, p) + TableScore(bs, maxPri, round + 1, p)
  }

  lemma {:induction false} ScoresTable(bs: seq<Backend>, maxPri: nat, round: nat, p: Option<nat>)
    requires bs != [] && round <= maxPri
    ensures Scores(bs, maxPri, Cursor(round, 0), Passes(|bs|, maxPri + 1 - round), p) ==
            TableScore(bs, maxPri, round, p)
    decreases maxPri - round
  {
    var rest := Passes(|bs|, maxPri - round);
    ScoresRow(bs, maxPri, Cursor(round, 0), rest + |bs|, p);
    hide Scores, RowScore, NextRound;
    if round < maxPri {
      ScoresTable(bs, maxPri, round + 1, p);
    } else {
      ScoresNone(bs, maxPri, Cursor(0, 0), p);
    }
  }

  /** How often a backend, or any backend, is due in one cycle. */
  function Due(bs: seq<Backend>, p: Option<nat>): nat {
    if p.None? then ActiveSum(bs)
    else if p.value < |bs| && bs[p.value].Active() then bs[p.value].priority else 0
  }

  function Remaining(b: Backend, round: nat): nat {
    if b.Active() && round < b.priority then b.priority - round else 0
  }

  /** Sum over the list of what each backend is still due from `round` on. */
  function ColumnSum(bs: seq<Backend>, round: nat, from: nat, p: Option<nat>): nat
    requires from <= |bs|
    decreases |bs| - from
  {
    if from == |bs| then 0
    else (if p.None? || p.value == from then Remaining(bs[from], round) else 0) + ColumnSum(bs, round, from + 1, p)
  }

  lemma {:induction false} ColumnStep(bs: seq<Backend>, round: nat, from: nat, p: Option<nat>)
    requires from <= |bs|
    ensures ColumnSum(bs, round, from, p) == RowScore(bs, round, from, p) + ColumnSum(bs, round + 1, from, p)
    decreases |bs| - from
  {
    if from < |bs| {
      ColumnStep(bs, round, from + 1, p);
    }
  }

  lemma {:induction false} ColumnSpent(bs: seq<Backend>, round: nat, from: nat, p: Option<nat>)
    requires from <= |bs| && forall i | 0 <= i < |bs| && bs[i].Active() :: bs[i].priority <= round
    ensures ColumnSum(bs, round, from, p) == 0
    decreases |bs| - from
  {
    if from < |bs| {
      ColumnSpent(bs, round, from + 1, p);
    }
  }

  /** Counting a cycle by rounds or by backends gives the same total. */
  lemma {:induction false} TableByColumns(bs: seq<Backend>, maxPri: nat, round: nat, p: Option<nat>)
    requires forall i | 0 <= i < |bs| && bs[i].Active() :: bs[i].priority <= maxPri
    requires round <= maxPri + 1
    ensures TableScore(bs, maxPri, round, p) == ColumnSum(bs, round, 0, p)
    decreases maxPri + 1 - round
  {
    if round <= maxPri {
      ColumnStep(bs, round, 0, p);
      TableByColumns(bs, maxPri, round + 1, p);
    } else {
      ColumnSpent(bs, round, 0, p);
    }
  }

  lemma {:induction false} ColumnOfOne(bs: seq<Backend>, from: nat, p: nat)
    requires from <= |bs|
    ensures ColumnSum(bs, 0, from, Some(p)) == if from <= p then Due(bs, Some(p)) else 0
    decreases |bs| - from
  {
    if from < |bs| {
      ColumnOfOne(bs, from + 1, p);
    }
  }

  lemma {:induction false} ColumnOfAll(bs: seq<Backend>, n: nat)
    requires n <= |bs|
    ensures ColumnSum(bs, 0, n, None) + ActiveSum(bs[..n]) == ActiveSum(bs)
    decreases |bs| - n
  {
    if n < |bs| {
      assert bs[..n + 1][..n] == bs[..n];
      ColumnOfAll(bs, n + 1);
    } else {
      assert bs[..n] == bs;
    }
  }

  lemma CycleScore(bs: seq<Backend>, maxPri: nat, c: Cursor, p: Option<nat>)
    requires On(bs, c) && c.round <= maxPri
    requires forall i | 0 <= i < |bs| && bs[i].Active() :: bs[i].priority <= maxPri
    ensures Scores(bs, maxPri, c, Period(bs, maxPri), p) == Due(bs, p)
  {
    ReachedFromStart(bs, maxPri, c);
    CycleRotatesBy(bs, maxPri, Cursor(0, 0), Passes(|bs|, c.round) + c.pos, p);
    ScoresTable(bs, maxPri, 0, p);
    TableByColumns(bs, maxPri, 0, p);
    if p.Some? {
      ColumnOfOne(bs, 0, p.value);
    } else {
      ColumnOfAll(bs, 0);
      assert bs[..0] == [];
    }
  }

  /** Exact fairness: from any cursor within the rounds, as many consecutive selections as the
      sum of the active priorities pick each backend exactly as often as it is due, that is its
      priority number of times if it is active and never otherwise. */
  lemma Fairness(bs: seq<Backend>, maxPri: nat, c: Cursor, p: nat)
    requires On(bs, c) && Eligible(bs) && c.round <= maxPri
    requires maxPri == ActiveMax(bs)
    ensures Count(Picks(bs, maxPri, c, ActiveSum(bs)), p) == Due(bs, Some(p))
  {
    var n := Period(bs, maxPri);
    CycleScore(bs, maxPri, c, None);
    CycleScore(bs, maxPri, c, Some(p));
    ScoresCountHits(bs, maxPri, c, n, p);
    PicksAreHits(bs, maxPri, c, n);
  }

  // The selector itself.

  ghost function CursorOf(bal: Balancer): Cursor
    requires bal.round >= 0
    reads bal
  {
    Cursor(bal.round, if bal.cur.Some? then bal.cur.value else 0)
  }

  lemma AdvanceOne(bs: seq<Backend>, maxPri: nat, c: Cursor, n: nat)
    requires On(bs, c)
    ensures AdvanceBy(bs, maxPri, c, n + 1) == Advance(bs, maxPri, AdvanceBy(bs, maxPri, c, n))
  {
    AdvanceSplit(bs, maxPri, c, n, 1);
    var d := AdvanceBy(bs, maxPri, c, n);
    assert AdvanceBy(bs, maxPri, d, 1) == AdvanceBy(bs, maxPri, Advance(bs, maxPri, d), 0);
  }

  /** One turn of the loop: look at the backend under the cursor, then advance. */
  method SelectTurn(bal: Balancer) returns (be: Option<nat>)
    requires bal.round >= 0 && bal.maxPri >= 0 && bal.cur.Some? && bal.cur.value < |bal.backends|
    modifies bal`round, bal`cur
    ensures bal.round >= 0 && bal.cur.Some?
    ensures CursorOf(bal) == Advance(bal.backends, bal.maxPri, old(CursorOf(bal)))
    ensures be == if Hit(bal.backends, old(CursorOf(bal))) then old(bal.cur) else None
  {
    be := None;
    var b := bal.backends[bal.cur.value];
    if b.Active() {
      if bal.round < b.priority {
        be := bal.cur;
      }
    }
    if bal.cur.value + 1 < |bal.backends| {
      bal.cur := Some(bal.cur.value + 1);
    } else {
      bal.cur := Some(0);
      bal.round := (bal.round + 1) % (bal.maxPri + 1);
    }
  }

  /** `iwrr_select`: None only for an empty list. */
  method Select(bal: Balancer) returns (be: Option<nat>)
    requires bal.round >= 0 && bal.maxPri >= 0 && (bal.cur.Some? ==> bal.cur.value < |bal.backends|)
    requires bal.backends != [] ==> Eligible(bal.backends)
    modifies bal`round, bal`cur
    ensures be.None? <==> bal.backends == []
    ensures bal.round >= 0 && (bal.backends != [] ==> bal.cur.Some?)
    ensures be.Some? ==>
              var c := if old(bal.cur).None? then Cursor(0, 0) else old(CursorOf(bal));
              && be.value == Selected(bal.backends, bal.maxPri, c)
              && CursorOf(bal) == AfterSelect(bal.backends, bal.maxPri, c)
  {
    hide Turns, AdvanceBy, Witness, Eligible, Advance, NextRound;
    if bal.cur.None? {
      bal.round := 0;
      bal.cur := if bal.backends == [] then None else Some(0);
      if bal.cur.None? { return None; }
    }
    ghost var bs, maxPri, c0 := bal.backends, bal.maxPri, CursorOf(bal);
    ghost var w := Witness(bs);
    ghost var total := Turns(bs, maxPri, c0, w);
    ghost var done, c := 0, c0;
    AdvanceNone(bs, maxPri, c0);
    be := None;
    while be.None?
      invariant bal.round >= 0 && bal.cur.Some? && CursorOf(bal) == c && On(bs, c)
      invariant 0 <= done <= total && c == AdvanceBy(bs, maxPri, c0, done)
      invariant be.None? ==> total == done + Turns(bs, maxPri, c, w)
      invariant be.Some? ==> done == total && be.value == AdvanceBy(bs, maxPri, c0, total - 1).pos
      decreases total - done, be.None?
    {
      TurnsStep(bs, maxPri, c, w);
      AdvanceOne(bs, maxPri, c0, done);
      be := SelectTurn(bal);
      done, c := done + 1, Advance(bs, maxPri, c);
    }
  }
}
