/** Substring patterns (`-contain`): the Boyer-Moore search of src/genpat.c.

    Characters are unsigned byte values.  The bad-character table has UCHAR_MAX
    (255) entries, so byte 255 has no entry and is outside the domain here.

    The helper `is_prefix` returns the opposite of what its comment says.  The
    model keeps both readings: `AsDocumented` and `AsWritten`. */
module BoyerMoore {

  const UCHAR_MAX := 255

  datatype PrefixTest = AsDocumented | AsWritten

  predicate InAlphabet(s: seq<int>) {
    forall k | 0 <= k < |s| :: 0 <= s[k] < UCHAR_MAX
  }

  /** Upper-case equivalents of ASCII letters (`casemap`), applied when `ci` is set. */
  function UC(ci: bool, c: int): (r: int)
  {
    if ci && 97 <= c <= 122 then c - 32 else c
  }

  function Fold(ci: bool, s: seq<int>): (r: seq<int>)
    ensures |r| == |s|
    ensures forall k | 0 <= k < |s| :: r[k] == UC(ci, s[k])
  {
    seq(|s|, k requires 0 <= k < |s| => UC(ci, s[k]))
  }

  /** What the search is for: an independent definition of "text contains pat". */
  predicate OccursAt(pat: seq<int>, text: seq<int>, at: int) {
    0 <= at <= |text| - |pat| && forall x | 0 <= x < |pat| :: text[at + x] == pat[x]
  }

  predicate Occurs(pat: seq<int>, text: seq<int>) {
    exists at | 0 <= at <= |text| - |pat| :: OccursAt(pat, text, at)
  }

  /** `lower` is an ASCII letter in lower case, and `upper` is that letter in upper case. */
  predicate CaseOf(lower: int, upper: int) { 'A' as int <= upper <= 'Z' as int && lower - 'a' as int == upper - 'A' as int }

  /** What a character of the pattern stands for: itself and, without regard to case, the other case of its letter. */
  predicate Alike(icase: bool, a: int, b: int) { a == b || (icase && (CaseOf(a, b) || CaseOf(b, a))) }

  predicate ContainedAt(icase: bool, pat: seq<int>, subj: seq<int>, at: int) {
    0 <= at <= |subj| - |pat| && forall x | 0 <= x < |pat| :: Alike(icase, pat[x], subj[at + x])
  }

  /** `pat` is in `subj`, in the case given or in any case. */
  predicate Contained(icase: bool, pat: seq<int>, subj: seq<int>) {
    exists at | 0 <= at <= |subj| - |pat| :: ContainedAt(icase, pat, subj, at)
  }

  /** Folding makes equal what is alike, and nothing else; it makes upper case of lower case. */
  lemma FoldedAlike(icase: bool, a: int, b: int)
    ensures UC(icase, a) == UC(icase, b) <==> Alike(icase, a, b)
    ensures CaseOf(a, b) ==> UC(true, a) == UC(true, b) == b
    ensures UC(false, a) == a
  {
  }

  lemma FoldedAt(icase: bool, pat: seq<int>, subj: seq<int>, at: int)
    ensures OccursAt(Fold(icase, pat), Fold(icase, subj), at) <==> ContainedAt(icase, pat, subj, at)
  {
    hide UC, Alike;
    var p, s := Fold(icase, pat), Fold(icase, subj);
    if 0 <= at <= |subj| - |pat| {
      forall x | 0 <= x < |pat| ensures s[at + x] == p[x] <==> Alike(icase, pat[x], subj[at + x]) {
        FoldedAlike(icase, pat[x], subj[at + x]);
      }
    }
  }

  /** The folded pattern is in the folded subject exactly if the pattern is in the subject. */
  lemma FoldedContained(icase: bool, pat: seq<int>, subj: seq<int>)
    ensures Occurs(Fold(icase, pat), Fold(icase, subj)) <==> Contained(icase, pat, subj)
  {
    hide OccursAt, ContainedAt, Fold;
    forall at ensures OccursAt(Fold(icase, pat), Fold(icase, subj), at) <==> ContainedAt(icase, pat, subj, at) {
      FoldedAt(icase, pat, subj, at);
    }
  }

  lemma FoldsNothing(s: seq<int>)
    ensures Fold(false, s) == s
  {
    forall k | 0 <= k < |s| ensures Fold(false, s)[k] == s[k] { FoldedAlike(false, s[k], s[k]); }
  }

  /** The characters of `pat` at x and `t` places after x agree. */
  predicate Shifted(pat: seq<int>, x: int, t: int) {
    0 <= x && 0 <= t && x + t < |pat| && pat[x] == pat[x + t]
  }

  predicate ShiftedOver(pat: seq<int>, lo: int, hi: int, t: int) {
    forall x | lo <= x < hi :: Shifted(pat, x, t)
  }

  /** The suffix of `pat` that starts at `p` is also a prefix of `pat`. */
  predicate Border(pat: seq<int>, p: int) {
    0 <= p <= |pat| && ShiftedOver(pat, 0, |pat| - p, p)
  }

  /** The suffix after `j` occurs `t` places to the left, preceded by another character. */
  predicate Reoccurs(pat: seq<int>, j: int, t: int) {
    && 1 <= t <= j < |pat|
    && ShiftedOver(pat, j - t + 1, |pat| - t, t)
    && pat[j - t] != pat[j]
  }

  predicate PrefixHolds(test: PrefixTest, pat: seq<int>, p: int) {
    if test.AsDocumented? then Border(pat, p) else !Border(pat, p)
  }

  /** Value of `j` after the first loop of `fill_good_pfx_delta` has handled index `i`:
      how far the pattern moves when no suffix occurrence applies. */
  function PrefixShift(test: PrefixTest, pat: seq<int>, i: int): (j: int)
    requires 0 <= i < |pat|
    ensures 1 <= j <= |pat|
    ensures j == 1 || (i < j && PrefixHolds(test, pat, j))
    ensures forall p | i < p < j :: !PrefixHolds(test, pat, p)
    ensures j <= i ==> forall p | i < p <= |pat| :: !PrefixHolds(test, pat, p)
    decreases |pat| - i
  {
    if PrefixHolds(test, pat, i + 1) then i + 1
    else if i == |pat| - 1 then 1
    else PrefixShift(test, pat, i + 1)
  }

  /** The entries above `i` are the shifts of the prefix rule. */
  ghost predicate ShiftsAbove(test: PrefixTest, pat: seq<int>, table: seq<int>, i: int) {
    |table| == |pat| && forall k | 0 <= k < |pat| && i < k :: table[k] == PrefixShift(test, pat, k) + |pat| - 1 - k
  }

  lemma ShiftsNext(test: PrefixTest, pat: seq<int>, table: seq<int>, i: int, j: int)
    requires ShiftsAbove(test, pat, table, i) && 0 <= i < |pat|
    requires if PrefixHolds(test, pat, i + 1) then j == i + 1
             else if i == |pat| - 1 then j == 1 else j == PrefixShift(test, pat, i + 1)
    ensures j == PrefixShift(test, pat, i)
    ensures ShiftsAbove(test, pat, table[i := j + |pat| - 1 - i], i - 1)
  {
    hide PrefixHolds;
  }

  lemma ShiftsNone(test: PrefixTest, pat: seq<int>, table: seq<int>)
    requires |table| == |pat|
    ensures ShiftsAbove(test, pat, table, |pat| - 1)
  {
  }

  lemma ShiftsAll(test: PrefixTest, pat: seq<int>, table: seq<int>)
    requires ShiftsAbove(test, pat, table, -1)
    ensures |table| == |pat| && forall k | 0 <= k < |pat| :: table[k] == PrefixShift(test, pat, k) + |pat| - 1 - k
  {
    hide PrefixShift;
  }

  /** Entry c is the distance from the last occurrence of c to the end of the pattern,
      and |pat| - 1 when c does not occur. */
  predicate BadCharTable(ci: bool, pat: seq<int>, bad: seq<int>) {
    && |bad| == UCHAR_MAX
    && forall c | 0 <= c < UCHAR_MAX && UC(ci, c) == c :: BadCharEntry(pat, c, |pat|, bad[c])
  }

  predicate BadCharEntry(pat: seq<int>, c: int, n: int, d: int)
    requires 0 <= n <= |pat|
  {
    var last := |pat| - 1 - d;
    && (d == |pat| - 1 || (0 <= last < n && pat[last] == c))
    && d <= |pat| - 1
    && forall k | 0 <= k < n && last < k :: pat[k] != c
  }

  /** The alignment moves right by `s` after a mismatch at pattern index j: to the
      nearest other occurrence of the matched suffix, else by the prefix rule. */
  predicate GoodShift(test: PrefixTest, pat: seq<int>, j: int, s: int, lo: int)
    requires 0 <= j < |pat|
  {
    || (lo <= s && Reoccurs(pat, j, s) && forall t | lo <= t < s :: !Reoccurs(pat, j, t))
    || (s == PrefixShift(test, pat, j) && forall t | lo <= t <= j :: !Reoccurs(pat, j, t))
  }

  /** Every entry accounts for the suffix occurrences `lo` or more places to the left. */
  predicate GoodFrom(test: PrefixTest, pat: seq<int>, good: seq<int>, lo: int) {
    && |good| == |pat|
    && forall j | 0 <= j < |pat| :: GoodShift(test, pat, j, good[j] - (|pat| - 1 - j), lo)
  }

  predicate GoodPfxTable(test: PrefixTest, pat: seq<int>, good: seq<int>) {
    GoodFrom(test, pat, good, 1)
  }

  predicate Tables(test: PrefixTest, ci: bool, pat: seq<int>, bad: seq<int>, good: seq<int>) {
    BadCharTable(ci, pat, bad) && GoodPfxTable(test, pat, good)
  }

  /** Inner loop of `strstr_exec`: the last pattern index that disagrees with the text
      when the pattern starts at `a`, or -1. */
  function Mismatch(pat: seq<int>, text: seq<int>, a: int, j: int): (r: int)
    requires -1 <= j < |pat| && 0 <= a <= |text| - |pat|
    ensures -1 <= r <= j
    ensures r >= 0 ==> text[a + r] != pat[r]
    ensures forall x | r < x <= j :: text[a + x] == pat[x]
  {
    if j >= 0 && text[a + j] == pat[j] then Mismatch(pat, text, a, j - 1) else j
  }

  lemma MismatchStep(pat: seq<int>, text: seq<int>, a: int, j: int)
    requires -1 <= j < |pat| && 0 <= a <= |text| - |pat|
    ensures Mismatch(pat, text, a, j) == if j >= 0 && text[a + j] == pat[j] then Mismatch(pat, text, a, j - 1) else j
  {
  }

  /** The alphabet is as large as it can be: for a subject of one byte that is not in the pattern, the first
      lookup is at that byte, and byte 255 has no entry in the table. */
  lemma AlphabetExact(pat: seq<int>, b: int)
    requires |pat| > 0 && InAlphabet(pat) && 0 <= b <= 255 && b !in pat
    ensures var text := seq(|pat|, i => b);
            var j := Mismatch(pat, text, 0, |pat| - 1);
            j == |pat| - 1 && (0 <= text[j] < UCHAR_MAX <==> b != 255)
  {
    var text := seq(|pat|, i => b);
    MismatchStep(pat, text, 0, |pat| - 1);
    assert pat[|pat| - 1] in pat;
  }

  function Max(a: int, b: int): int { if a > b then a else b }

  predicate Advances(good: seq<int>) {
    forall j | 0 <= j < |good| :: good[j] > |good| - 1 - j
  }

  /** Where the pattern starts next after a mismatch at index j of the alignment `a`. */
  function NextStart(pat: seq<int>, bad: seq<int>, good: seq<int>, text: seq<int>, a: int, j: int): (next: int)
    requires 0 <= j < |pat| == |good| && |bad| == UCHAR_MAX && InAlphabet(text)
    requires 0 <= a <= |text| - |pat|
  {
    a + j + Max(bad[text[a + j]], good[j]) - (|pat| - 1)
  }

  /** Outer loop of `strstr_exec` on a folded text, from the alignment `a`; true is a match. */
  function Scan(pat: seq<int>, bad: seq<int>, good: seq<int>, text: seq<int>, a: int): (found: bool)
    requires |pat| > 0 && |good| == |pat| && Advances(good)
    requires |bad| == UCHAR_MAX && InAlphabet(text) && a >= 0
    ensures found ==> Occurs(pat, text)
    decreases |text| - a
  {
    if a > |text| - |pat| then false
    else
      var j := Mismatch(pat, text, a, |pat| - 1);
      if j < 0 then
        assert OccursAt(pat, text, a);
        true
      else
        Scan(pat, bad, good, text, NextStart(pat, bad, good, text, a, j))
  }

  lemma FoldInAlphabet(ci: bool, s: seq<int>)
    requires InAlphabet(s)
    ensures InAlphabet(Fold(ci, s))
  {
  }

  lemma FoldAt(ci: bool, s: seq<int>, i: nat)
    requires InAlphabet(s) && i < |s|
    ensures Fold(ci, s)[i] == UC(ci, s[i]) && 0 <= UC(ci, s[i]) < UCHAR_MAX
  {
  }

  lemma ScanStep(pat: seq<int>, bad: seq<int>, good: seq<int>, text: seq<int>, a: int, j: int)
    requires |pat| > 0 && |good| == |pat| && Advances(good)
    requires |bad| == UCHAR_MAX && InAlphabet(text) && 0 <= a <= |text| - |pat|
    requires 0 <= j == Mismatch(pat, text, a, |pat| - 1)
    ensures a < NextStart(pat, bad, good, text, a, j)
    ensures Scan(pat, bad, good, text, a) == Scan(pat, bad, good, text, NextStart(pat, bad, good, text, a, j))
  {
  }

  lemma ScanEnds(pat: seq<int>, bad: seq<int>, good: seq<int>, text: seq<int>, a: int)
    requires |pat| > 0 && |good| == |pat| && Advances(good)
    requires |bad| == UCHAR_MAX && InAlphabet(text) && a >= 0
    ensures a > |text| - |pat| ==> !Scan(pat, bad, good, text, a)
    ensures a <= |text| - |pat| && Mismatch(pat, text, a, |pat| - 1) < 0 ==> Scan(pat, bad, good, text, a)
  {
  }

  lemma TableAdvances(test: PrefixTest, pat: seq<int>, good: seq<int>)
    requires GoodPfxTable(test, pat, good)
    ensures Advances(good)
  {
    forall j | 0 <= j < |good| ensures good[j] > |good| - 1 - j {
      assert GoodShift(test, pat, j, good[j] - (|pat| - 1 - j), 1);
    }
  }

  /** Patterns on which the code as written never shifts too far: whenever the suffix after j
      is a border but some shorter suffix is not, the suffix rule must apply at j. */
  predicate LiteralSafe(pat: seq<int>) {
    forall j | 0 <= j < |pat| - 1 && Overshoots(pat, j) ::
      exists t | 1 <= t <= j :: Reoccurs(pat, j, t)
  }

  predicate Overshoots(pat: seq<int>, j: int)
    requires 0 <= j < |pat|
  {
    Border(pat, j + 1) && exists p | j + 2 <= p < |pat| :: !Border(pat, p)
  }

  predicate Faithful(test: PrefixTest, pat: seq<int>) {
    test.AsDocumented? || LiteralSafe(pat)
  }

  /** A nearer alignment that matched would have to place the text's matched suffix, and a
      different character before it, somewhere in the pattern. */
  lemma NearOccurrenceReoccurs(pat: seq<int>, text: seq<int>, a: int, j: int, t: int)
    requires 0 <= j < |pat| && 1 <= t && 0 <= a
    requires OccursAt(pat, text, a + t)
    requires a + |pat| <= |text| && text[a + j] != pat[j]
    requires forall x | j < x < |pat| :: text[a + x] == pat[x]
    ensures t <= j ==> Reoccurs(pat, j, t)
    ensures j < t <= |pat| ==> Border(pat, t)
  {
    var m := |pat|;
    if t <= j {
      forall x | j - t < x < m - t ensures Shifted(pat, x, t) {
        assert text[a + (x + t)] == pat[x + t] && text[a + t + x] == pat[x];
      }
      assert text[a + t + (j - t)] == pat[j - t];
    } else if t <= m {
      forall x | 0 <= x < m - t ensures Shifted(pat, x, t) {
        assert text[a + (x + t)] == pat[x + t] && text[a + t + x] == pat[x];
      }
    }
  }

  /** The prefix rule never passes the least border, for both readings on safe patterns. */
  lemma PrefixShiftBound(test: PrefixTest, pat: seq<int>, j: int, t: int)
    requires 0 <= j < t <= |pat| && Border(pat, t) && Faithful(test, pat)
    requires forall u | 1 <= u <= j :: !Reoccurs(pat, j, u)
    ensures PrefixShift(test, pat, j) <= t
  {
    var s := PrefixShift(test, pat, j);
    if s > t {
      assert !PrefixHolds(test, pat, t);
      assert !PrefixHolds(test, pat, j + 1);
      assert PrefixHolds(test, pat, s);
      assert Border(pat, |pat|);
      assert Overshoots(pat, j);
      assert false;
    }
  }

  /** The good-suffix entry at j skips no occurrence. */
  lemma GoodShiftSafe(test: PrefixTest, pat: seq<int>, text: seq<int>, a: int, j: int, s: int, t: int)
    requires 0 <= j < |pat| && 1 <= t && 0 <= a && Faithful(test, pat)
    requires GoodShift(test, pat, j, s, 1)
    requires OccursAt(pat, text, a + t) && text[a + j] != pat[j]
    requires forall x | j < x < |pat| :: text[a + x] == pat[x]
    ensures s <= t
  {
    NearOccurrenceReoccurs(pat, text, a, j, t);
    if j < t <= |pat| && s == PrefixShift(test, pat, j) && forall u | 1 <= u <= j :: !Reoccurs(pat, j, u) {
      PrefixShiftBound(test, pat, j, t);
    }
  }

  /** Neither does the bad-character entry. */
  lemma BadShiftSafe(ci: bool, pat: seq<int>, bad: seq<int>, text: seq<int>, a: int, j: int, t: int)
    requires 0 <= j < |pat| && 1 <= t && 0 <= a && BadCharTable(ci, pat, bad)
    requires OccursAt(pat, text, a + t) && InAlphabet(text) && UC(ci, text[a + j]) == text[a + j]
    ensures j + bad[text[a + j]] - (|pat| - 1) <= t
  {
    var c := text[a + j];
    assert BadCharEntry(pat, c, |pat|, bad[c]);
    if t <= j {
      assert text[a + t + (j - t)] == pat[j - t];
    }
  }

  predicate Folded(ci: bool, s: seq<int>) {
    forall k | 0 <= k < |s| :: UC(ci, s[k]) == s[k]
  }

  /** One move of the outer loop does not jump over an occurrence. */
  lemma StepSafe(test: PrefixTest, ci: bool, pat: seq<int>, bad: seq<int>, good: seq<int>,
                 text: seq<int>, a: int, j: int, at: int)
    requires 0 <= j < |pat| && Tables(test, ci, pat, bad, good) && Faithful(test, pat)
    requires InAlphabet(text) && Folded(ci, text)
    requires 0 <= a < at && OccursAt(pat, text, at) && text[a + j] != pat[j]
    requires forall x | j < x < |pat| :: text[a + x] == pat[x]
    ensures NextStart(pat, bad, good, text, a, j) <= at
  {
    hide GoodShift, Faithful, BadCharEntry;
    var t, g := at - a, good[j];
    BadShiftSafe(ci, pat, bad, text, a, j, t);
    GoodShiftSafe(test, pat, text, a, j, g - (|pat| - 1 - j), t);
  }

  /** Completeness: an occurrence at or after the current alignment is never missed. */
  lemma {:induction false} ScanFinds(test: PrefixTest, ci: bool, pat: seq<int>, bad: seq<int>, good: seq<int>,
                                     text: seq<int>, a: int, at: int)
    requires |pat| > 0 && Tables(test, ci, pat, bad, good) && Advances(good)
    requires InAlphabet(text) && Folded(ci, text)
    requires Faithful(test, pat)
    requires OccursAt(pat, text, at) && 0 <= a <= at
    ensures Scan(pat, bad, good, text, a)
    decreases |text| - a
  {
    hide GoodShift, BadCharEntry, Faithful;
    var j := Mismatch(pat, text, a, |pat| - 1);
    if j >= 0 {
      assert a != at;
      var next := NextStart(pat, bad, good, text, a, j);
      StepSafe(test, ci, pat, bad, good, text, a, j, at);
      ScanFinds(test, ci, pat, bad, good, text, next, at);
      assert Scan(pat, bad, good, text, a) == Scan(pat, bad, good, text, next);
    }
  }

  lemma ScanIffOccurs(test: PrefixTest, ci: bool, pat: seq<int>, bad: seq<int>, good: seq<int>, text: seq<int>)
    requires |pat| > 0 && Tables(test, ci, pat, bad, good) && Advances(good)
    requires InAlphabet(text) && Folded(ci, text) && Faithful(test, pat)
    ensures Scan(pat, bad, good, text, 0) <==> Occurs(pat, text)
  {
    if Occurs(pat, text) {
      var at :| 0 <= at <= |text| - |pat| && OccursAt(pat, text, at);
      ScanFinds(test, ci, pat, bad, good, text, 0, at);
    }
  }

  /** A text on which an unsafe pattern is missed: one wrong character at the overshooting
      position, then the pattern itself. */
  function MissedText(pat: seq<int>, j: int): (text: seq<int>)
    requires 0 <= j < |pat|
  {
    seq(j, _ => 1) + [if pat[j] == 1 then 2 else 1] + pat
  }

  lemma MissedTextOccurs(ci: bool, pat: seq<int>, j: int)
    requires 0 <= j < |pat| && InAlphabet(pat) && Folded(ci, pat)
    ensures var text := MissedText(pat, j);
            InAlphabet(text) && Folded(ci, text) && Occurs(pat, text)
  {
    var text := MissedText(pat, j);
    assert OccursAt(pat, text, j + 1);
  }

  lemma MissedTextMismatch(pat: seq<int>, j: int)
    requires 0 <= j < |pat| && Border(pat, j + 1)
    ensures Mismatch(pat, MissedText(pat, j), 0, |pat| - 1) == j
  {
    var text := MissedText(pat, j);
    forall x | j < x < |pat| ensures text[x] == pat[x] {
      assert Shifted(pat, x - (j + 1), j + 1);
    }
  }

  lemma OvershootShift(pat: seq<int>, good: seq<int>, j: int)
    requires 0 <= j < |pat| - 1 && GoodPfxTable(AsWritten, pat, good)
    requires Overshoots(pat, j) && !exists t | 1 <= t <= j :: Reoccurs(pat, j, t)
    ensures good[j] - (|pat| - 1 - j) >= j + 2
  {
    assert GoodShift(AsWritten, pat, j, good[j] - (|pat| - 1 - j), 1);
    var p :| j + 2 <= p < |pat| && !Border(pat, p);
    assert PrefixHolds(AsWritten, pat, p);
    assert !PrefixHolds(AsWritten, pat, j + 1);
  }

  lemma OvershootMisses(ci: bool, pat: seq<int>, bad: seq<int>, good: seq<int>, j: int)
    requires 0 <= j < |pat| - 1 && InAlphabet(pat) && Folded(ci, pat)
    requires |bad| == UCHAR_MAX && GoodPfxTable(AsWritten, pat, good) && |good| == |pat| && Advances(good)
    requires Overshoots(pat, j) && !exists t | 1 <= t <= j :: Reoccurs(pat, j, t)
    ensures var text := MissedText(pat, j);
            InAlphabet(text) && Folded(ci, text) && Occurs(pat, text) && !Scan(pat, bad, good, text, 0)
  {
    hide Scan, Occurs, GoodFrom, Border, Reoccurs, Mismatch, Advances;
    var text := MissedText(pat, j);
    MissedTextOccurs(ci, pat, j);
    MissedTextMismatch(pat, j);
    OvershootShift(pat, good, j);
    ScanStep(pat, bad, good, text, 0, j);
    ScanEnds(pat, bad, good, text, NextStart(pat, bad, good, text, 0, j));
  }

  /** The search as written agrees with "contains" on every text exactly for safe patterns. */
  lemma LiteralCorrectIff(ci: bool, pat: seq<int>, bad: seq<int>, good: seq<int>)
    requires |pat| > 0 && InAlphabet(pat) && Folded(ci, pat)
    requires Tables(AsWritten, ci, pat, bad, good) && Advances(good)
    ensures LiteralSafe(pat) <==>
            (forall text | InAlphabet(text) && Folded(ci, text) ::
               (Scan(pat, bad, good, text, 0) <==> Occurs(pat, text)))
  {
    if LiteralSafe(pat) {
      forall text | InAlphabet(text) && Folded(ci, text)
        ensures Scan(pat, bad, good, text, 0) <==> Occurs(pat, text)
      {
        ScanIffOccurs(AsWritten, ci, pat, bad, good, text);
      }
    } else {
      var j :| 0 <= j < |pat| - 1 && Overshoots(pat, j) && !exists t | 1 <= t <= j :: Reoccurs(pat, j, t);
      OvershootMisses(ci, pat, bad, good, j);
    }
  }

  /** "abab" is unsafe, and is missed in "xcabab". */
  lemma AbabIsUnsafe()
    ensures !LiteralSafe([97, 98, 97, 98])
  {
    var pat := [97, 98, 97, 98];
    assert !Border(pat, 3) by { assert !Shifted(pat, 0, 3); }
    assert Overshoots(pat, 1);
    forall t | 1 <= t <= 1 ensures !Reoccurs(pat, 1, t) {
      assert !Shifted(pat, 2 - t, t);
    }
  }

  lemma AbabMissed(bad: seq<int>, good: seq<int>)
    requires Tables(AsWritten, false, [97, 98, 97, 98], bad, good) && Advances(good)
    ensures var text := [120, 99, 97, 98, 97, 98];
            Occurs([97, 98, 97, 98], text) && !Scan([97, 98, 97, 98], bad, good, text, 0)
  {
    var pat, text := [97, 98, 97, 98], [120, 99, 97, 98, 97, 98];
    assert OccursAt(pat, text, 2);
    assert Mismatch(pat, text, 0, 3) == 1;
    var s := good[1] - 2;
    assert GoodShift(AsWritten, pat, 1, s, 1);
    assert !Reoccurs(pat, 1, 1) by { assert !Shifted(pat, 1, 1); }
    assert Border(pat, 2);
    assert !Border(pat, 3) by { assert !Shifted(pat, 0, 3); }
    assert s == PrefixShift(AsWritten, pat, 1) == 3;
  }

  /** Which suffix of the pattern ends `|pat| - 1 - i` places before its end. */
  lemma SuffixLengthDetermines(pat: seq<int>, i: int, n: int, j: int)
    requires 0 <= n <= i < |pat| - 1 && 0 <= j < |pat|
    requires ShiftedOver(pat, i - n + 1, i + 1, |pat| - 1 - i)
    requires n < i ==> pat[i - n] != pat[|pat| - 1 - n]
    ensures Reoccurs(pat, j, |pat| - 1 - i) <==>
            (j == |pat| - 1 - n && pat[i - n] != pat[|pat| - 1 - n])
  {
    var m, t := |pat|, |pat| - 1 - i;
    if j < m - 1 - n {
      assert Reoccurs(pat, j, t) ==> Shifted(pat, i - n, t);
    } else if j > m - 1 - n {
      assert Shifted(pat, j - t, t);
    }
  }

  /** One turn of the second loop of `fill_good_pfx_delta`, seen from entry j. */
  lemma GoodEntryStep(test: PrefixTest, pat: seq<int>, i: int, n: int, j: int, s: int)
    requires 0 <= n <= i < |pat| - 1 && 0 <= j < |pat| && GoodShift(test, pat, j, s, |pat| - i)
    requires ShiftedOver(pat, i - n + 1, i + 1, |pat| - 1 - i)
    requires n < i ==> pat[i - n] != pat[|pat| - 1 - n]
    ensures var taken := pat[i - n] != pat[|pat| - 1 - n] && j == |pat| - 1 - n;
            GoodShift(test, pat, j, if taken then |pat| - 1 - i else s, |pat| - 1 - i)
  {
    SuffixLengthDetermines(pat, i, n, j);
  }

  lemma GoodTableStep(test: PrefixTest, pat: seq<int>, i: int, n: int, good: seq<int>, after: seq<int>)
    requires 0 <= n <= i < |pat| - 1 && GoodFrom(test, pat, good, |pat| - i)
    requires ShiftedOver(pat, i - n + 1, i + 1, |pat| - 1 - i)
    requires n < i ==> pat[i - n] != pat[|pat| - 1 - n]
    requires var k := |pat| - 1 - n;
             after == if pat[i - n] != pat[k] then good[k := |pat| - 1 - i + n] else good
    ensures GoodFrom(test, pat, after, |pat| - 1 - i)
  {
    hide GoodShift;
    forall j | 0 <= j < |pat| ensures GoodShift(test, pat, j, after[j] - (|pat| - 1 - j), |pat| - 1 - i) {
      GoodEntryStep(test, pat, i, n, j, good[j] - (|pat| - 1 - j));
    }
  }

  lemma GoodTableStart(test: PrefixTest, pat: seq<int>, good: seq<int>)
    requires |good| == |pat|
    requires forall k | 0 <= k < |pat| :: good[k] == PrefixShift(test, pat, k) + |pat| - 1 - k
    ensures GoodFrom(test, pat, good, |pat|)
    ensures pat == [] ==> GoodFrom(test, pat, good, 1)
  {
  }

  class StrstrPattern {
    var pattern: seq<int>
    var ci: bool
    const badCharDelta: array<int>
    var goodPfxDelta: array<int>

    constructor ()
      ensures fresh(this) && fresh(badCharDelta) && badCharDelta.Length == UCHAR_MAX
      ensures fresh(goodPfxDelta)
    {
      badCharDelta := new int[UCHAR_MAX];
      goodPfxDelta := new int[0];
    }

    ghost predicate Compiled(test: PrefixTest, icase: bool, pat: seq<int>)
      reads this, badCharDelta, goodPfxDelta
    {
      && ci == icase && pattern == Fold(icase, pat) && InAlphabet(pattern)
      && Tables(test, ci, pattern, badCharDelta[..], goodPfxDelta[..])
      && goodPfxDelta.Length == |pattern| && Advances(goodPfxDelta[..])
    }

    method FillBadCharDelta()
      requires badCharDelta.Length == UCHAR_MAX && InAlphabet(pattern) && Folded(ci, pattern)
      modifies badCharDelta
      ensures BadCharTable(ci, pattern, badCharDelta[..])
    {
      var m := |pattern|;
      var i := 0;
      while i < UCHAR_MAX
        invariant 0 <= i <= UCHAR_MAX
        invariant forall c | 0 <= c < i && UC(ci, c) == c :: badCharDelta[c] == m - 1
      {
        badCharDelta[UC(ci, i)] := m - 1;
        i := i + 1;
      }
      i := 0;
      while i < m
        invariant 0 <= i <= m
        invariant forall c | 0 <= c < UCHAR_MAX && UC(ci, c) == c :: BadCharEntry(pattern, c, i, badCharDelta[c])
      {
        badCharDelta[UC(ci, pattern[i])] := m - 1 - i;
        i := i + 1;
      }
    }

    /** `is_prefix`, read as documented or as written. */
    method IsPrefix(test: PrefixTest, pos: int) returns (r: bool)
      requires 0 <= pos <= |pattern|
      ensures r <==> PrefixHolds(test, pattern, pos)
    {
      var differ := pattern[..|pattern| - pos] != pattern[pos..];
      assert !differ <==> Border(pattern, pos) by {
        if Border(pattern, pos) {
          forall x | 0 <= x < |pattern| - pos ensures pattern[..|pattern| - pos][x] == pattern[pos..][x] {
            assert Shifted(pattern, x, pos);
          }
        } else {
          var x :| 0 <= x < |pattern| - pos && !Shifted(pattern, x, pos);
          assert pattern[..|pattern| - pos][x] != pattern[pos..][x];
        }
      }
      r := if test.AsWritten? then differ else !differ;
    }

    method LongestSuffixLength(pos: int) returns (n: int)
      requires 0 <= pos < |pattern| - 1
      ensures 0 <= n <= pos
      ensures ShiftedOver(pattern, pos - n + 1, pos + 1, |pattern| - 1 - pos)
      ensures n < pos ==> pattern[pos - n] != pattern[|pattern| - 1 - n]
    {
      n := 0;
      while n < pos
        invariant 0 <= n <= pos
        invariant ShiftedOver(pattern, pos - n + 1, pos + 1, |pattern| - 1 - pos)
      {
        if pattern[pos - n] != pattern[|pattern| - 1 - n] { break; }
        n := n + 1;
      }
    }

    method FillGoodPfxDelta(test: PrefixTest)
      modifies this`goodPfxDelta
      ensures fresh(goodPfxDelta)
      ensures GoodPfxTable(test, pattern, goodPfxDelta[..])
    {
      goodPfxDelta := new int[|pattern|];
      FillPrefixShifts(test);
      GoodTableStart(test, pattern, goodPfxDelta[..]);
      FillSuffixShifts(test);
    }

    /** First loop of `fill_good_pfx_delta`. */
    method FillPrefixShifts(test: PrefixTest)
      requires goodPfxDelta.Length == |pattern|
      modifies goodPfxDelta
      ensures forall k | 0 <= k < |pattern| :: goodPfxDelta[k] == PrefixShift(test, pattern, k) + |pattern| - 1 - k
    {
      hide PrefixHolds, PrefixShift, ShiftsAbove;
      var pat, m := pattern, |pattern|;
      var j, i := 1, m - 1;
      ShiftsNone(test, pat, goodPfxDelta[..]);
      while i >= 0
        invariant -1 <= i <= m - 1
        invariant i == m - 1 ==> j == 1
        invariant i < m - 1 ==> j == PrefixShift(test, pat, i + 1)
        invariant ShiftsAbove(test, pat, goodPfxDelta[..], i)
      {
        var isPrefix := IsPrefix(test, i + 1);
        if isPrefix { j := i + 1; }
        ShiftsNext(test, pat, goodPfxDelta[..], i, j);
        goodPfxDelta[i] := j + m - 1 - i;
        i := i - 1;
      }
      ShiftsAll(test, pat, goodPfxDelta[..]);
    }

    /** Second loop of `fill_good_pfx_delta`. */
    method FillSuffixShifts(test: PrefixTest)
      requires goodPfxDelta.Length == |pattern| && GoodFrom(test, pattern, goodPfxDelta[..], |pattern|)
      requires pattern == [] ==> GoodFrom(test, pattern, goodPfxDelta[..], 1)
      modifies goodPfxDelta
      ensures GoodFrom(test, pattern, goodPfxDelta[..], 1)
    {
      hide GoodFrom;
      var pat, m, i := pattern, |pattern|, 0;
      while i < m - 1
        invariant 0 <= i && (m > 0 ==> i <= m - 1) && (m == 0 ==> goodPfxDelta[..] == old(goodPfxDelta[..]))
        invariant GoodFrom(test, pat, goodPfxDelta[..], m - i)
      {
        ghost var good := goodPfxDelta[..];
        var suflen := LongestSuffixLength(i);
        if pat[i - suflen] != pat[m - 1 - suflen] {
          goodPfxDelta[m - 1 - suflen] := m - 1 - i + suflen;
        }
        ghost var after := goodPfxDelta[..];
        GoodTableStep(test, pat, i, suflen, good, after);
        i := i + 1;
      }
    }

    /** `strstr_compile` */
    method Compile(test: PrefixTest, pat: seq<int>, icase: bool)
      requires badCharDelta.Length == UCHAR_MAX && InAlphabet(pat)
      modifies this, badCharDelta
      ensures Compiled(test, icase, pat)
    {
      ci := icase;
      pattern := [];
      var i := 0;
      while i < |pat|
        invariant 0 <= i <= |pat| && ci == icase
        invariant |pattern| == i && forall k | 0 <= k < i :: pattern[k] == UC(ci, pat[k])
      {
        pattern := pattern + [UC(ci, pat[i])];
        i := i + 1;
      }
      FillBadCharDelta();
      FillGoodPfxDelta(test);
      assert pattern == Fold(icase, pat);
      TableAdvances(test, pattern, goodPfxDelta[..]);
    }

    /** `strstr_exec`: 0 is a match, 1 is none. */
    method Exec(test: PrefixTest, icase: bool, ghost pat: seq<int>, subj: seq<int>) returns (r: int)
      requires Compiled(test, icase, pat) && InAlphabet(subj)
      ensures r == 0 || r == 1
      ensures r == 0 ==> Occurs(Fold(icase, pat), Fold(icase, subj))
      ensures Faithful(test, Fold(icase, pat)) ==> (r == 0 <==> Occurs(Fold(icase, pat), Fold(icase, subj)))
      ensures r == 0 ==> Contained(icase, pat, subj)
      ensures Faithful(test, Fold(icase, pat)) ==> (r == 0 <==> Contained(icase, pat, subj))
      ensures !icase ==> (r == 0 ==> Occurs(pat, subj)) && (Faithful(test, pat) ==> (r == 0 <==> Occurs(pat, subj)))
      ensures pat != [] ==>
                r == if Scan(pattern, badCharDelta[..], goodPfxDelta[..], Fold(icase, subj), 0) then 0 else 1
    {
      ghost var text := Fold(icase, subj);
      FoldedContained(icase, pat, subj);
      FoldsNothing(pat);
      FoldsNothing(subj);
      if |pattern| == 0 {
        assert OccursAt(pattern, text, 0);
        return 0;
      }
      if Faithful(test, pattern) {
        ScanIffOccurs(test, ci, pattern, badCharDelta[..], goodPfxDelta[..], text);
      }
      r := ExecLoop(subj);
    }

    /** Inner loop of `strstr_exec`. */
    method MatchBackwards(subj: seq<int>, end: int) returns (i: int, j: int)
      requires |pattern| - 1 <= end < |subj|
      ensures j == Mismatch(pattern, Fold(ci, subj), end - (|pattern| - 1), |pattern| - 1)
      ensures i == end - (|pattern| - 1) + j
    {
      hide Mismatch, UC, Fold;
      ghost var text, a := Fold(ci, subj), end - (|pattern| - 1);
      var pat := pattern;
      i, j := end, |pat| - 1;
      while j >= 0 && UC(ci, subj[i]) == pat[j]
        invariant -1 <= j < |pat| && i == a + j
        invariant Mismatch(pat, text, a, |pat| - 1) == Mismatch(pat, text, a, j)
      {
        MismatchStep(pat, text, a, j);
        i, j := i - 1, j - 1;
      }
      MismatchStep(pat, text, a, j);
    }

    /** The search loop of `strstr_exec`, for a non-empty pattern. */
    method ExecLoop(subj: seq<int>) returns (r: int)
      requires |pattern| > 0 && goodPfxDelta.Length == |pattern| && Advances(goodPfxDelta[..])
      requires badCharDelta.Length == UCHAR_MAX && InAlphabet(subj)
      ensures r == if Scan(pattern, badCharDelta[..], goodPfxDelta[..], Fold(ci, subj), 0) then 0 else 1
    {
      hide Scan, Mismatch, Advances, InAlphabet, UC, Fold, Max;
      ghost var text, bad, good := Fold(ci, subj), badCharDelta[..], goodPfxDelta[..];
      FoldInAlphabet(ci, subj);
      var pat, m := pattern, |pattern|;
      var i := m - 1;
      while i < |subj|
        invariant i >= m - 1
        invariant Scan(pat, bad, good, text, i - (m - 1)) == Scan(pat, bad, good, text, 0)
        decreases |subj| - i
      {
        ghost var a := i - (m - 1);
        var j;
        i, j := MatchBackwards(subj, i);
        if j < 0 {
          ScanEnds(pat, bad, good, text, a);
          return 0;
        }
        ScanStep(pat, bad, good, text, a, j);
        FoldAt(ci, subj, i);
        i := i + Max(badCharDelta[UC(ci, subj[i])], goodPfxDelta[j]);
      }
      ScanEnds(pat, bad, good, text, i - (m - 1));
      return 1;
    }
  }
}
