/** JSON values, and objects held as a sorted list of pairs (src/json.c). */
module Json {
  import opened Options

  /** Numbers are integers here: the tags json_integer and json_number are one constructor. */
  datatype Value =
    | Null
    | Bool(b: bool)
    | Number(n: int)
    | String(s: string)
    | Array(items: seq<Value>)
    | Object(pairs: seq<Pair>)

  datatype Pair = Pair(k: string, v: Value)

  /** `strcmp` */
  function Compare(a: string, b: string): (c: int)
    ensures c == 0 <==> a == b
  {
    if a == [] then (if b == [] then 0 else -1)
    else if b == [] then 1
    else if a[0] < b[0] then -1
    else if a[0] > b[0] then 1
    else
      assert a == [a[0]] + a[1..] && b == [b[0]] + b[1..];
      Compare(a[1..], b[1..])
  }

  predicate Below(a: string, b: string) { Compare(a, b) < 0 }

  /** `b` goes on where `a` ends, or has a greater character where they first differ. */
  ghost predicate Lexical(a: string, b: string) {
    exists n | 0 <= n <= |a| && n <= |b| :: a[..n] == b[..n] && n < |b| && (n == |a| || a[n] < b[n])
  }

  /** The order of keys is that of dictionaries. */
  lemma {:induction false} BelowIsLexical(a: string, b: string)
    ensures Below(a, b) <==> Lexical(a, b)
  {
    forall n | 0 < n <= |a| && n <= |b| && a[..n] == b[..n] ensures a[0] == b[0] { SameFirst(a, b, n); }
    assert a[..0] == b[..0];
    if a != [] && b != [] && a[0] == b[0] {
      BelowIsLexical(a[1..], b[1..]);
      if Lexical(a[1..], b[1..]) {
        var n :| 0 <= n <= |a[1..]| && n <= |b[1..]| && a[1..][..n] == b[1..][..n] && n < |b[1..]| && (n == |a[1..]| || a[1..][n] < b[1..][n]);
        assert a[..n + 1] == [a[0]] + a[1..][..n] && b[..n + 1] == [b[0]] + b[1..][..n];
      }
      if n :| 0 <= n <= |a| && n <= |b| && a[..n] == b[..n] && n < |b| && (n == |a| || a[n] < b[n]) {
        assert a[1..][..n - 1] == a[..n][1..] && b[1..][..n - 1] == b[..n][1..];
      }
    }
  }

  lemma SameFirst(a: string, b: string, n: nat)
    requires 0 < n <= |a| && n <= |b| && a[..n] == b[..n]
    ensures a[0] == b[0]
  {
    assert a[..n][0] == a[0];
  }

  lemma {:induction false} CompareAntisymmetric(a: string, b: string)
    ensures Below(a, b) <==> Compare(b, a) > 0
  {
    if a != [] && b != [] && a[0] == b[0] {
      CompareAntisymmetric(a[1..], b[1..]);
    }
  }

  lemma {:induction false} BelowTransitive(a: string, b: string, c: string)
    requires Below(a, b) && Below(b, c)
    ensures Below(a, c)
  {
    if a != [] && a[0] == b[0] == c[0] {
      BelowTransitive(a[1..], b[1..], c[1..]);
    }
  }

  predicate Sorted(pairs: seq<Pair>) {
    forall i, j | 0 <= i < j < |pairs| :: Below(pairs[i].k, pairs[j].k)
  }

  predicate HasKey(pairs: seq<Pair>, k: string) {
    exists i | 0 <= i < |pairs| :: pairs[i].k == k
  }

  /** Every key before position i is below k, every key from i on is above. */
  predicate Gap(pairs: seq<Pair>, k: string, i: int) {
    && 0 <= i <= |pairs|
    && (forall j | 0 <= j < i :: Below(pairs[j].k, k))
    && (forall j | i <= j < |pairs| :: Below(k, pairs[j].k))
  }

  /** Value of the first pair with this key. */
  function Lookup(pairs: seq<Pair>, k: string): (r: Option<Value>)
    ensures r.Some? <==> HasKey(pairs, k)
  {
    if pairs == [] then None
    else if pairs[0].k == k then Some(pairs[0].v)
    else
      assert HasKey(pairs, k) <==> HasKey(pairs[1..], k) by {
        if HasKey(pairs, k) {
          var i :| 0 <= i < |pairs| && pairs[i].k == k;
          assert pairs[1..][i - 1].k == k;
        }
      }
      Lookup(pairs[1..], k)
  }

  /** The map an object stands for. */
  ghost function ToMap(pairs: seq<Pair>): map<string, Value> {
    map k | k in Keys(pairs) :: Lookup(pairs, k).value
  }

  ghost function Keys(pairs: seq<Pair>): (s: set<string>)
    ensures forall k :: k in s <==> HasKey(pairs, k)
  {
    set i | 0 <= i < |pairs| :: pairs[i].k
  }

  /** Two lists that answer lookups alike, except for one key, stand for maps one update apart. */
  lemma SameLookups(before: seq<Pair>, after: seq<Pair>, name: string, v: Value)
    requires forall k :: Lookup(after, k) == if k == name then Some(v) else Lookup(before, k)
    ensures ToMap(after) == ToMap(before)[name := v]
  {
    hide Lookup;
    assert forall k :: k in Keys(after) <==> Lookup(after, k).Some?;
    assert forall k :: k in Keys(before) <==> Lookup(before, k).Some?;
  }

  /** In a sorted list the pair at any position is the one its key finds. */
  lemma {:induction false} LookupAt(pairs: seq<Pair>, i: nat)
    requires Sorted(pairs) && i < |pairs|
    ensures Lookup(pairs, pairs[i].k) == Some(pairs[i].v)
  {
    if i > 0 {
      assert Below(pairs[0].k, pairs[i].k);
      LookupAt(pairs[1..], i - 1);
    }
  }

  function Insert(pairs: seq<Pair>, i: nat, p: Pair): seq<Pair>
    requires i <= |pairs|
  {
    pairs[..i] + [p] + pairs[i..]
  }

  lemma {:induction false} LookupInserted(pairs: seq<Pair>, i: nat, p: Pair, k: string)
    requires i <= |pairs| && !HasKey(pairs, p.k)
    ensures Lookup(Insert(pairs, i, p), k) == if k == p.k then Some(p.v) else Lookup(pairs, k)
    decreases i
  {
    var r := Insert(pairs, i, p);
    if i == 0 {
      assert r[1..] == pairs;
    } else {
      assert pairs[0].k != p.k;
      assert !HasKey(pairs[1..], p.k) by {
        assert forall j | 0 <= j < |pairs| - 1 :: pairs[1..][j] == pairs[j + 1];
      }
      LookupInserted(pairs[1..], i - 1, p, k);
      assert r[0] == pairs[0] && r[1..] == Insert(pairs[1..], i - 1, p);
    }
  }

  lemma {:induction false} LookupReplaced(pairs: seq<Pair>, i: nat, v: Value, k: string)
    requires i < |pairs| && Sorted(pairs)
    ensures Lookup(pairs[i := Pair(pairs[i].k, v)], k) == if k == pairs[i].k then Some(v) else Lookup(pairs, k)
    decreases i
  {
    var r := pairs[i := Pair(pairs[i].k, v)];
    if i == 0 {
      assert r[1..] == pairs[1..];
    } else {
      assert Below(pairs[0].k, pairs[i].k);
      LookupReplaced(pairs[1..], i - 1, v, k);
      assert r[0] == pairs[0] && r[1..] == pairs[1..][i - 1 := Pair(pairs[i].k, v)];
    }
  }

  /** The list with one key set: its pair replaced, or inserted in order. */
  function Put(pairs: seq<Pair>, k: string, v: Value): seq<Pair> {
    if pairs == [] || Below(k, pairs[0].k) then [Pair(k, v)] + pairs
    else if pairs[0].k == k then [Pair(k, v)] + pairs[1..]
    else [pairs[0]] + Put(pairs[1..], k, v)
  }

  lemma {:induction false} PutReplaces(pairs: seq<Pair>, i: nat, v: Value)
    requires Sorted(pairs) && i < |pairs|
    ensures Put(pairs, pairs[i].k, v) == pairs[i := Pair(pairs[i].k, v)]
    decreases i
  {
    if i > 0 {
      assert Below(pairs[0].k, pairs[i].k);
      CompareAntisymmetric(pairs[0].k, pairs[i].k);
      PutReplaces(pairs[1..], i - 1, v);
    }
  }

  lemma {:induction false} PutInserts(pairs: seq<Pair>, i: nat, p: Pair)
    requires Gap(pairs, p.k, i)
    ensures Put(pairs, p.k, p.v) == Insert(pairs, i, p)
    decreases i
  {
    if i > 0 {
      CompareAntisymmetric(pairs[0].k, p.k);
      PutInserts(pairs[1..], i - 1, p);
      assert Insert(pairs, i, p) == [pairs[0]] + Insert(pairs[1..], i - 1, p);
    }
  }

  lemma InsertSorted(pairs: seq<Pair>, i: nat, p: Pair)
    requires Sorted(pairs) && Gap(pairs, p.k, i)
    ensures Sorted(Insert(pairs, i, p))
  {
    hide Below;
    var r := Insert(pairs, i, p);
    assert forall j | 0 <= j < i :: r[j] == pairs[j];
    assert r[i] == p;
    assert forall j | i < j < |r| :: r[j] == pairs[j - 1];
  }

  class JsonObject {
    var pairs: seq<Pair>
    var pairCount: nat

    constructor ()
      ensures Valid() && pairs == []
    {
      pairs, pairCount := [], 0;
    }

    ghost predicate Valid()
      reads this
    {
      Sorted(pairs) && pairCount == |pairs|
    }

    /** `json_object_lookup_or_install`: position of the pair, or None when it is absent and not
        to be installed.  A new pair has a NULL value, which stands for null. */
    method LookupOrInstall(name: string, install: bool) returns (at: Option<nat>)
      requires Valid()
      modifies this
      ensures Valid()
      ensures at.Some? <==> old(HasKey(pairs, name)) || install
      ensures at.Some? ==> at.value < |pairs| && pairs[at.value].k == name
      ensures old(HasKey(pairs, name)) || !install ==> pairs == old(pairs)
      ensures !old(HasKey(pairs, name)) && install ==>
                Gap(old(pairs), name, at.value) && pairs == Insert(old(pairs), at.value, Pair(name, Null))
    {
      var l := -1;
      if pairCount != 0 {
        if Compare(pairs[0].k, name) > 0 {
          l := -1;
        } else if Compare(pairs[|pairs| - 1].k, name) < 0 {
          l := |pairs| - 1;
        } else {
          var found;
          l, found := Bisect(name);
          if found { return Some(l); }
        }
      }
      EndsGap(pairs, name, l);
      if !install { return None; }
      var i := Install(name, l);
      return Some(i);
    }

    /** The installing part: move on from `l` to the last key below the name, insert after it. */
    method Install(name: string, start: int) returns (at: nat)
      requires Valid() && -1 <= start < |pairs| && !HasKey(pairs, name)
      requires start >= 0 ==> Below(pairs[start].k, name)
      requires start < 0 && pairs != [] ==> Compare(pairs[0].k, name) > 0
      modifies this
      ensures Valid()
      ensures Gap(old(pairs), name, at) && pairs == Insert(old(pairs), at, Pair(name, Null))
      ensures at < |pairs| && pairs[at].k == name
    {
      var l := start;
      if l >= 0 {
        while l + 1 < |pairs| && Compare(pairs[l + 1].k, name) < 0
          invariant 0 <= l < |pairs|
          invariant Below(pairs[l].k, name)
        {
          l := l + 1;
        }
      }
      at := l + 1;
      GapAt(pairs, name, at);
      InsertSorted(pairs, at, Pair(name, Null));
      pairs := Insert(pairs, at, Pair(name, Null));
      pairCount := pairCount + 1;
    }

    /** The bisection loop, for a name between the first and the last key. */
    method Bisect(name: string) returns (l: nat, found: bool)
      requires Valid() && pairs != []
      requires Compare(pairs[0].k, name) <= 0 && Compare(pairs[|pairs| - 1].k, name) >= 0
      ensures l < |pairs|
      ensures found ==> pairs[l].k == name
      ensures !found ==> Below(pairs[l].k, name) && !HasKey(pairs, name)
    {
      l := 0;
      var count := pairCount;
      while count != 0
        invariant l + count <= |pairs| && count > 0
        invariant Compare(pairs[l].k, name) <= 0
        invariant l + count < |pairs| ==> Compare(pairs[l + count].k, name) > 0
        decreases count
      {
        var n := count / 2;
        var m := l;
        var i := 0;
        while i < n
          invariant 0 <= i <= n && m == l + i
        {
          m, i := m + 1, i + 1;
        }
        var c := Compare(pairs[m].k, name);
        if c == 0 {
          return m, true;
        } else if n == 0 {
          BracketedAbsent(pairs, name, l);
          return l, false;
        } else if c < 0 {
          l := m;
          count := count - n;
        } else {
          count := n;
        }
      }
    }

    /** `json_object_set` */
    method Set(name: string, val: Value)
      requires Valid()
      modifies this
      ensures Valid()
      ensures ToMap(pairs) == old(ToMap(pairs))[name := val]
      ensures pairs == Put(old(pairs), name, val)
    {
      var at := LookupOrInstall(name, true);
      SetLookups(old(pairs), pairs, at.value, name, val);
      pairs := pairs[at.value := Pair(name, val)];
    }

    /** `json_object_get` */
    method Get(name: string) returns (r: Option<Value>)
      requires Valid()
      modifies this
      ensures Valid() && pairs == old(pairs)
      ensures r == if name in ToMap(pairs) then Some(ToMap(pairs)[name]) else None
    {
      var at := LookupOrInstall(name, false);
      if at.None? { return None; }
      LookupAt(pairs, at.value);
      return Some(pairs[at.value].v);
    }
  }

  /** Installing the pair, if absent, and then storing the value, updates one key. */
  lemma SetLookups(was: seq<Pair>, pairs: seq<Pair>, at: nat, name: string, v: Value)
    requires Sorted(was) && Sorted(pairs) && at < |pairs| && pairs[at].k == name
    requires if HasKey(was, name) then pairs == was
             else Gap(was, name, at) && pairs == Insert(was, at, Pair(name, Null))
    ensures Sorted(pairs[at := Pair(name, v)])
    ensures ToMap(pairs[at := Pair(name, v)]) == ToMap(was)[name := v]
    ensures pairs[at := Pair(name, v)] == Put(was, name, v)
  {
    var after := pairs[at := Pair(name, v)];
    forall k ensures Lookup(after, k) == if k == name then Some(v) else Lookup(was, k) {
      LookupReplaced(pairs, at, v, k);
      if !HasKey(was, name) {
        LookupInserted(was, at, Pair(name, Null), k);
      }
    }
    SameLookups(was, after, name, v);
    if HasKey(was, name) {
      PutReplaces(was, at, v);
    } else {
      PutInserts(was, at, Pair(name, v));
      assert after == Insert(was, at, Pair(name, v));
    }
  }

  /** Outside the bisection, and after it, the name is not in the list. */
  lemma EndsGap(pairs: seq<Pair>, name: string, l: int)
    requires Sorted(pairs) && -1 <= l < |pairs|
    requires l >= 0 ==> Below(pairs[l].k, name)
    requires l < 0 && pairs != [] ==> Compare(pairs[0].k, name) > 0
    requires 0 <= l < |pairs| - 1 ==> !HasKey(pairs, name)
    ensures !HasKey(pairs, name)
  {
    if l == |pairs| - 1 {
      forall i | 0 <= i < |pairs| ensures pairs[i].k != name {
        CompareAntisymmetric(pairs[l].k, name);
      }
    } else if l < 0 {
      CompareAntisymmetric(name, pairs[0].k);
      forall i | 0 <= i < |pairs| ensures pairs[i].k != name {
        if i > 0 {
          CompareAntisymmetric(name, pairs[i].k);
          BelowTransitive(name, pairs[0].k, pairs[i].k);
        }
      }
    }
  }

  lemma GapAt(pairs: seq<Pair>, name: string, l: int)
    requires Sorted(pairs) && !HasKey(pairs, name) && 0 <= l <= |pairs|
    requires l > 0 ==> Below(pairs[l - 1].k, name)
    requires l < |pairs| ==> Compare(pairs[l].k, name) >= 0
    ensures Gap(pairs, name, l)
  {
    forall j | 0 <= j < l ensures Below(pairs[j].k, name) {
      if j < l - 1 { BelowTransitive(pairs[j].k, pairs[l - 1].k, name); }
    }
    forall j | l <= j < |pairs| ensures Below(name, pairs[j].k) {
      assert pairs[l].k != name;
      CompareAntisymmetric(name, pairs[l].k);
      if j > l { BelowTransitive(name, pairs[l].k, pairs[j].k); }
    }
  }

  lemma BracketedAbsent(pairs: seq<Pair>, name: string, l: nat)
    requires Sorted(pairs) && l < |pairs| && Below(pairs[l].k, name)
    requires l + 1 < |pairs| ==> Compare(pairs[l + 1].k, name) > 0
    ensures !HasKey(pairs, name)
  {
    forall i | 0 <= i < |pairs| ensures pairs[i].k != name {
      if i < l {
        BelowTransitive(pairs[i].k, pairs[l].k, name);
      } else if i > l {
        CompareAntisymmetric(name, pairs[l + 1].k);
        if i > l + 1 { BelowTransitive(name, pairs[l + 1].k, pairs[i].k); }
      }
    }
  }
}
