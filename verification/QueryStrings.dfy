/** Query strings and URLs of a request (src/http.c). */
module QueryStrings {
  import opened Options

  /** Index of the first `c` in `s`, or the length of `s`. */
  function Upto(s: string, c: char): (n: nat)
    ensures n <= |s| && (n < |s| ==> s[n] == c) && forall j | 0 <= j < n :: s[j] != c
  {
    if s == "" || s[0] == c then 0 else 1 + Upto(s[1..], c)
  }

  lemma {:induction false} UptoIs(s: string, c: char, n: nat)
    requires n <= |s| && (n < |s| ==> s[n] == c) && forall j | 0 <= j < n :: s[j] != c
    ensures Upto(s, c) == n
  {
  }

  /** A query parameter; one without `=` has no value. */
  datatype Param = Param(name: string, value: Option<string>)

  function ParseSegment(seg: string): Param {
    var i := Upto(seg, '=');
    if i == |seg| then Param(seg, None) else Param(seg[..i], Some(seg[i + 1..]))
  }

  function AfterSegment(q: string): (r: string)
    ensures q != "" ==> |r| < |q|
  {
    var n := Upto(q, '&');
    if n < |q| then q[n + 1..] else ""
  }

  function Parse(q: string): seq<Param>
    decreases |q|
  {
    if q == "" then [] else [ParseSegment(q[..Upto(q, '&')])] + Parse(AfterSegment(q))
  }

  function ParamText(p: Param): string {
    if p.value.Some? then p.name + "=" + p.value.value else p.name
  }

  function Print(ps: seq<Param>): string {
    if ps == [] then "" else if |ps| == 1 then ParamText(ps[0]) else ParamText(ps[0]) + "&" + Print(ps[1..])
  }

  /** The text that `Parse` does not see: a last `&`. */
  function Tail(q: string): string { if q != "" && q[|q| - 1] == '&' then "&" else "" }

  lemma SegmentText(seg: string)
    ensures ParamText(ParseSegment(seg)) == seg
  {
    var i := Upto(seg, '=');
    if i < |seg| { assert seg == seg[..i] + [seg[i]] + seg[i + 1..]; }
  }

  lemma {:induction false} PrintCons(p: Param, ps: seq<Param>)
    ensures Print([p] + ps) == if ps == [] then ParamText(p) else ParamText(p) + "&" + Print(ps)
  {
    assert ([p] + ps)[1..] == ps;
  }

  lemma {:induction false} ParsedNone(q: string)
    ensures Parse(q) == [] <==> q == ""
  {
  }

  lemma {:induction false} ParseSteps(q: string)
    requires q != ""
    ensures var r := AfterSegment(q);
            && Parse(q) == [ParseSegment(q[..Upto(q, '&')])] + Parse(r)
            && Print(Parse(q)) == q[..Upto(q, '&')] + if r == "" then "" else "&" + Print(Parse(r))
  {
    hide Upto, ParseSegment;
    var p, ps := ParseSegment(q[..Upto(q, '&')]), Parse(AfterSegment(q));
    SegmentText(q[..Upto(q, '&')]);
    PrintCons(p, ps);
    ParsedNone(AfterSegment(q));
    hide Print;
  }

  lemma {:induction false} SegmentSplit(q: string)
    requires q != ""
    ensures var n, r := Upto(q, '&'), AfterSegment(q);
            if n < |q| then q == q[..n] + "&" + r else q == q[..n] && r == "" && Tail(q) == ""
  {
    hide Upto;
    var n := Upto(q, '&');
    if n < |q| {
      assert q == q[..n] + [q[n]] + q[n + 1..];
    } else {
      assert q[..n] == q;
    }
  }

  lemma Glue(seg: string, r: string, pr: string)
    requires r == pr + Tail(r)
    ensures seg + "&" + r == seg + (if r == "" then "" else "&" + pr) + Tail(seg + "&" + r)
  {
    var q := seg + "&" + r;
    if r == "" {
      assert q == seg + "&";
    } else {
      assert q[|q| - 1] == r[|r| - 1];
      calc { q; seg + "&" + (pr + Tail(r)); seg + ("&" + pr) + Tail(r); }
    }
  }

  /** Parsing loses nothing but a last `&`. */
  lemma {:induction false} PrintParsed(q: string)
    ensures q == Print(Parse(q)) + Tail(q)
    decreases |q|
  {
    if q != "" {
      var n, r := Upto(q, '&'), AfterSegment(q);
      ParseSteps(q);
      PrintParsed(r);
      SegmentSplit(q);
      Glue(q[..n], r, Print(Parse(r)));
      hide *;
    }
  }

  /** What a list must be for its text to be read back: no separators in it, and no nameless last item. */
  predicate Clean(p: Param) {
    '&' !in p.name && '=' !in p.name && (p.value.Some? ==> '&' !in p.value.value)
  }

  predicate CleanList(ps: seq<Param>) {
    (forall i | 0 <= i < |ps| :: Clean(ps[i])) && (ps != [] ==> ps[|ps| - 1] != Param("", None))
  }

  lemma CleanSegment(p: Param)
    requires Clean(p)
    ensures ParseSegment(ParamText(p)) == p && '&' !in ParamText(p)
  {
    var t := ParamText(p);
    UptoIs(t, '=', |p.name|);
    assert t[..|p.name|] == p.name;
    if p.value.Some? { assert t[|p.name| + 1..] == p.value.value; }
  }

  lemma {:induction false} SegmentThen(t: string, rest: string)
    requires '&' !in t
    ensures var q := t + "&" + rest; Upto(q, '&') == |t| && q[..|t|] == t && AfterSegment(q) == rest
  {
    UptoIs(t + "&" + rest, '&', |t|);
    hide Upto;
  }

  lemma {:induction false} SegmentOnly(t: string)
    requires '&' !in t
    ensures Upto(t, '&') == |t| && t[..|t|] == t && AfterSegment(t) == ""
  {
    UptoIs(t, '&', |t|);
    hide Upto;
  }

  lemma {:induction false} CleanReadBack(ps: seq<Param>)
    requires CleanList(ps)
    ensures Parse(Print(ps)) == ps
  {
    if ps != [] {
      var t := ParamText(ps[0]);
      CleanSegment(ps[0]);
      hide Upto, ParseSegment, AfterSegment, Clean;
      if |ps| > 1 {
        CleanReadBack(ps[1..]);
        SegmentThen(t, Print(ps[1..]));
        ParseSteps(Print(ps));
        hide Parse, Print;
        assert ps == [ps[0]] + ps[1..];
      } else {
        SegmentOnly(t);
        assert t != "" && Parse("") == [];
      }
    }
  }

  lemma {:induction false} ParsedClean(q: string)
    ensures forall i | 0 <= i < |Parse(q)| :: Clean(Parse(q)[i])
    decreases |q|
  {
    if q != "" { ParsedClean(AfterSegment(q)); }
  }

  lemma {:induction false} NamelessLast(ps: seq<Param>)
    requires ps != [] && ps[|ps| - 1] == Param("", None)
    ensures if |ps| == 1 then Print(ps) == "" else Tail(Print(ps)) == "&"
  {
    if |ps| > 1 { NamelessLast(ps[1..]); }
  }

  /** A list is read back from its text if and only if it is clean. */
  lemma ReadBackIff(ps: seq<Param>)
    ensures Parse(Print(ps)) == ps <==> CleanList(ps)
  {
    if CleanList(ps) { CleanReadBack(ps); }
    if Parse(Print(ps)) == ps {
      ParsedClean(Print(ps));
      PrintParsed(Print(ps));
      if ps != [] && ps[|ps| - 1] == Param("", None) { NamelessLast(ps); }
    }
  }

  /** Index of the first parameter with this name, or the length of the list. */
  function Find(ps: seq<Param>, name: string): (i: nat)
    ensures i <= |ps| && (i < |ps| ==> ps[i].name == name) && forall j | 0 <= j < i :: ps[j].name != name
  {
    if ps == [] || ps[0].name == name then 0 else 1 + Find(ps[1..], name)
  }

  /** A question mark in a parameter. */
  predicate HasMark(p: Param) { '?' in p.name || (p.value.Some? && '?' in p.value.value) }

  lemma ItemMarks(p: Param)
    ensures HasMark(p) <==> '?' in ParamText(p)
  {
    var t := ParamText(p);
    if p.value.Some? {
      assert t[..|p.name|] == p.name && t[|p.name| + 1..] == p.value.value && t[|p.name|] == '=';
    }
  }

  lemma {:induction false} PrintMarks(ps: seq<Param>)
    ensures '?' in Print(ps) <==> exists i | 0 <= i < |ps| :: HasMark(ps[i])
  {
    if ps != [] {
      ItemMarks(ps[0]);
      PrintMarks(ps[1..]);
      hide HasMark;
      var t, rest := ParamText(ps[0]), Print(ps[1..]);
      MarkInConcat(t, rest);
      assert ps == [ps[0]] + ps[1..];
      hide Print;
      if i :| 0 <= i < |ps[1..]| && HasMark(ps[1..][i]) { assert HasMark(ps[i + 1]); }
      if i :| 0 < i < |ps| && HasMark(ps[i]) { assert HasMark(ps[1..][i - 1]); }
    }
  }

  lemma MarkInConcat(t: string, rest: string)
    ensures '?' in t + "&" + rest <==> '?' in t || '?' in rest
  {
  }

  lemma {:induction false} ParsedMarks(q: string)
    requires '?' !in q
    ensures forall i | 0 <= i < |Parse(q)| :: !HasMark(Parse(q)[i])
  {
    PrintParsed(q);
    PrintMarks(Parse(q));
    hide Parse, Print, HasMark;
    var t := Print(Parse(q));
    assert forall i | 0 <= i < |t| :: t[i] == q[i];
  }

  /** The items after an assignment: those before, less the one removed or replaced, and the new one. */
  lemma AssignItems(ps: seq<Param>, name: string, value: Option<string>)
    requires value.Some? || Find(ps, name) < |ps|
    ensures var i, n, qs := Find(ps, name), |ps|, Assign(ps, name, value);
            && (value.Some? ==> i < |qs| && qs[i] == Param(name, value) && |qs| == (if i == n then n + 1 else n))
            && (value.Some? ==> forall j | 0 <= j < |qs| && j != i :: j < n && qs[j] == ps[j])
            && (value.None? ==> |qs| == n - 1 && forall j | 0 <= j < |qs| :: qs[j] == ps[if j < i then j else j + 1])
  {
    hide Find;
  }

  /** `None` is for no such parameter; the inner value for one without `=`. */
  function ValueOf(ps: seq<Param>, name: string): Option<Option<string>> {
    var i := Find(ps, name);
    if i < |ps| then Some(ps[i].value) else None
  }

  /** Set, append or (without a value) remove the first parameter with this name. */
  function Assign(ps: seq<Param>, name: string, value: Option<string>): seq<Param> {
    var i := Find(ps, name);
    if i == |ps| then if value.None? then ps else ps + [Param(name, value)]
    else if value.None? then ps[..i] + ps[i + 1..]
    else ps[i := Param(name, value)]
  }

  lemma {:induction false} FindIs(ps: seq<Param>, name: string, i: nat)
    requires i <= |ps| && (i < |ps| ==> ps[i].name == name) && forall j | 0 <= j < i :: ps[j].name != name
    ensures Find(ps, name) == i
  {
  }

  lemma AssignThenValue(ps: seq<Param>, name: string, v: string)
    ensures ValueOf(Assign(ps, name, Some(v)), name) == Some(Some(v))
  {
    FindIs(Assign(ps, name, Some(v)), name, Find(ps, name));
  }

  /** The values of all parameters of this name, in order. */
  function AllOf(ps: seq<Param>, name: string): seq<Option<string>> {
    if ps == [] then [] else (if ps[0].name == name then [ps[0].value] else []) + AllOf(ps[1..], name)
  }

  lemma {:induction false} AllOfConcat(a: seq<Param>, b: seq<Param>, name: string)
    ensures AllOf(a + b, name) == AllOf(a, name) + AllOf(b, name)
  {
    if a == [] {
      assert a + b == b;
    } else {
      var h := if a[0].name == name then [a[0].value] else [];
      assert (a + b)[1..] == a[1..] + b && (a + b)[0] == a[0];
      assert AllOf(a + b, name) == h + AllOf(a[1..] + b, name);
      AllOfConcat(a[1..], b, name);
      hide AllOf;
      Assoc(h, AllOf(a[1..], name), AllOf(b, name));
    }
  }

  lemma {:induction false} NoneOf(ps: seq<Param>, name: string)
    requires forall j | 0 <= j < |ps| :: ps[j].name != name
    ensures AllOf(ps, name) == []
  {
    if ps != [] { NoneOf(ps[1..], name); }
  }

  lemma AllOfOne(p: Param, name: string)
    ensures AllOf([p], name) == if p.name == name then [p.value] else []
  {
    assert [p][1..] == [];
  }

  lemma AllOfSplit(ps: seq<Param>, i: nat, name: string)
    requires i < |ps|
    ensures AllOf(ps, name) ==
              AllOf(ps[..i], name) + (if ps[i].name == name then [ps[i].value] else []) + AllOf(ps[i + 1..], name)
  {
    assert ps == ps[..i] + ps[i..];
    assert ps[i..][1..] == ps[i + 1..];
    AllOfConcat(ps[..i], ps[i..], name);
  }

  /** The values of a name after an assignment: its first value changes, and no value of another name. */
  function Assigned(was: seq<Option<string>>, value: Option<string>): seq<Option<string>> {
    (if value.Some? then [value] else []) + if was == [] then [] else was[1..]
  }

  lemma {:induction false} AppendChanges(ps: seq<Param>, name: string, value: Option<string>, other: string)
    requires Find(ps, name) == |ps| && value.Some?
    ensures AllOf(ps + [Param(name, value)], other) ==
              if other == name then Assigned(AllOf(ps, name), value) else AllOf(ps, other)
  {
    hide Find, AllOf;
    AllOfConcat(ps, [Param(name, value)], other);
    AllOfOne(Param(name, value), other);
    NoneOf(ps, name);
  }

  lemma {:induction false} ReplaceChanges(ps: seq<Param>, i: nat, name: string, value: Option<string>, other: string)
    requires i == Find(ps, name) < |ps| && value.Some?
    ensures AllOf(ps[i := Param(name, value)], other) ==
              if other == name then Assigned(AllOf(ps, name), value) else AllOf(ps, other)
  {
    hide Find, AllOf;
    var qs := ps[i := Param(name, value)];
    NoneOf(ps[..i], name);
    assert qs[..i] == ps[..i] && qs[i + 1..] == ps[i + 1..];
    AllOfSplit(ps, i, other);
    AllOfSplit(qs, i, other);
  }

  lemma {:induction false} RemoveChanges(ps: seq<Param>, i: nat, name: string, other: string)
    requires i == Find(ps, name) < |ps|
    ensures AllOf(ps[..i] + ps[i + 1..], other) == if other == name then Assigned(AllOf(ps, name), None) else AllOf(ps, other)
  {
    hide Find, AllOf;
    NoneOf(ps[..i], name);
    AllOfSplit(ps, i, other);
    AllOfConcat(ps[..i], ps[i + 1..], other);
  }

  /** An assignment changes the first value of its own name and nothing else. */
  lemma AssignChanges(ps: seq<Param>, name: string, value: Option<string>, other: string)
    ensures AllOf(Assign(ps, name, value), other) == if other == name then Assigned(AllOf(ps, name), value) else AllOf(ps, other)
  {
    hide Find, AllOf;
    var i := Find(ps, name);
    if i == |ps| {
      NoneOf(ps, name);
      if value.Some? { AppendChanges(ps, name, value, other); }
    } else if value.None? {
      RemoveChanges(ps, i, name, other);
    } else {
      ReplaceChanges(ps, i, name, value, other);
    }
  }

  lemma {:induction false} FirstOfAll(ps: seq<Param>, name: string)
    ensures ValueOf(ps, name) == if AllOf(ps, name) == [] then None else Some(AllOf(ps, name)[0])
  {
    if ps != [] { FirstOfAll(ps[1..], name); }
  }

  lemma {:induction false} SegmentHere(q: string, pl: nat, nl: nat)
    requires nl <= pl <= |q| && nl == Upto(q[..pl], '=')
    ensures ParseSegment(q[..pl]) == Param(q[..nl], if nl == pl then None else Some(q[nl + 1..pl]))
  {
    hide Upto;
    assert q[..pl][..nl] == q[..nl];
    if nl < pl { assert q[..pl][nl + 1..] == q[nl + 1..pl]; }
  }

  lemma Assoc<T>(a: seq<T>, b: seq<T>, c: seq<T>)
    ensures a + (b + c) == a + b + c
  {
  }

  ghost predicate ParsedSoFar(ps: seq<Param>, q: string, query: string) { ps + Parse(q) == Parse(query) }

  lemma {:induction false} ParseTurn(ps: seq<Param>, q: string, query: string, pl: nat, nl: nat)
    requires q != "" && pl == Upto(q, '&') && nl == Upto(q[..pl], '=') && ParsedSoFar(ps, q, query)
    ensures ParsedSoFar(ps + [Param(q[..nl], if nl == pl then None else Some(q[nl + 1..pl]))],
                        if pl < |q| then q[pl + 1..] else "", query)
  {
    hide Upto, Parse, Print, ParseSegment;
    ParseSteps(q);
    SegmentHere(q, pl, nl);
    Assoc(ps, [ParseSegment(q[..pl])], Parse(AfterSegment(q)));
  }

  /** `http_request_parse_query`: the loop over the text. */
  method ParseQuery(query: string) returns (ps: seq<Param>)
    ensures ps == Parse(query)
  {
    ps := [];
    var q := query;
    while q != ""
      invariant ParsedSoFar(ps, q, query)
      decreases |q|
    {
      hide *;
      var pl := Upto(q, '&');
      var nl := Upto(q[..pl], '=');
      ParseTurn(ps, q, query, pl, nl);
      ps := ps + [Param(q[..nl], if nl == pl then None else Some(q[nl + 1..pl]))];
      q := if pl < |q| then q[pl + 1..] else "";
    }
  }

  /** The loop of `http_request_rebuild_query`. */
  method PrintQuery(ps: seq<Param>) returns (q: string)
    ensures q == Print(ps)
  {
    q := "";
    var more := false;
    for i := 0 to |ps|
      invariant more == (i > 0) && q == Print(ps[..i])
    {
      PrintLast(ps[..i], ps[i]);
      assert ps[..i + 1] == ps[..i] + [ps[i]];
      if more { q := q + "&"; } else { more := true; }
      q := q + ps[i].name;
      if ps[i].value.Some? { q := q + "=" + ps[i].value.value; }
    }
    assert ps[..|ps|] == ps;
  }

  lemma {:induction false} PrintLast(ps: seq<Param>, p: Param)
    ensures Print(ps + [p]) == if ps == [] then ParamText(p) else Print(ps) + "&" + ParamText(p)
  {
    if |ps| > 0 {
      assert (ps + [p])[1..] == ps[1..] + [p];
      PrintLast(ps[1..], p);
    }
  }

  /** The search of `http_request_get_query_param`. */
  method FindParam(ps: seq<Param>, name: string) returns (i: nat)
    ensures i == Find(ps, name)
  {
    i := 0;
    while i < |ps| && ps[i].name != name
      invariant 0 <= i <= |ps| && forall j | 0 <= j < i :: ps[j].name != name
    {
      i := i + 1;
    }
    FindIs(ps, name, i);
  }

  // URLs.

  /** Where the query starts: the last `?` that is not the first character, or the end. */
  function LastMark(url: string): (n: nat)
    ensures n <= |url| && (n < |url| ==> n > 0 && url[n] == '?')
    ensures forall j | (if n < |url| then n + 1 else 1) <= j < |url| :: url[j] != '?'
  {
    LastMarkFrom(url, |url|)
  }

  function LastMarkFrom(url: string, p: nat): (n: nat)
    requires p <= |url| && forall j | p < j < |url| :: url[j] != '?'
    ensures n <= |url| && (n < |url| ==> n > 0 && url[n] == '?')
    ensures forall j | (if n < |url| then n + 1 else 1) <= j < |url| :: url[j] != '?'
  {
    if p == 0 then |url| else if p < |url| && url[p] == '?' then p else LastMarkFrom(url, p - 1)
  }

  lemma LastMarkIs(url: string, n: nat)
    requires 0 < n < |url| && url[n] == '?' && forall j | n < j < |url| :: url[j] != '?'
    ensures LastMark(url) == n
  {
  }

  function PathOf(url: string): string { url[..LastMark(url)] }

  function QueryOf(url: string): Option<string> {
    var n := LastMark(url);
    if n + 1 < |url| then Some(url[n + 1..]) else None
  }

  function Join(path: string, query: Option<string>): string {
    if query.Some? then path + "?" + query.value else path
  }

  function DropMark(url: string): string {
    if |url| > 1 && url[|url| - 1] == '?' then url[..|url| - 1] else url
  }

  /** Splitting loses nothing but a last `?`. */
  lemma JoinSplit(url: string)
    ensures Join(PathOf(url), QueryOf(url)) == DropMark(url)
  {
    var n := LastMark(url);
    if n < |url| {
      assert url == url[..n] + "?" + url[n + 1..];
      if n + 1 < |url| { assert url[|url| - 1] in url[n + 1..]; }
    } else if |url| > 1 {
      assert url[|url| - 1] in url[1..];
    }
  }

  /** A path and a query are read back from the URL made of them if and only if the last `?` of it is
      the one between them. */
  predicate Splittable(path: string, query: Option<string>) {
    match query
    case Some(q) => path != "" && q != "" && '?' !in q
    case None => path == "" || '?' !in path[1..]
  }

  lemma SplitJoinIff(path: string, query: Option<string>)
    ensures PathOf(Join(path, query)) == path && QueryOf(Join(path, query)) == query <==> Splittable(path, query)
  {
    var url := Join(path, query);
    var n := LastMark(url);
    if query.Some? {
      assert url[|path| + 1..] == query.value;
      if Splittable(path, query) {
        LastMarkIs(url, |path|);
        assert url[..|path|] == path;
      }
    } else {
      assert Splittable(path, query) <==> forall j | 1 <= j < |path| :: path[j] != '?' by {
        if path != "" { assert forall j | 1 <= j < |path| :: path[j] == path[1..][j - 1]; }
      }
      assert url[..|path|] == path;
    }
  }

  lemma QueryHasNoMark(url: string)
    ensures QueryOf(url).Some? ==> '?' !in QueryOf(url).value
  {
    hide LastMark;
  }

  /** Section 3.4 of RFC 3986: the query starts after the first `?`. */
  function FirstMark(url: string): nat { Upto(url, '?') }

  /** The split agrees with RFC 3986 if and only if the URL has no second `?` and does not start with one. */
  lemma SplitIsRfcIff(url: string)
    ensures LastMark(url) == FirstMark(url) <==>
              (url == "" || url[0] != '?') && forall j | FirstMark(url) < j < |url| :: url[j] != '?'
  {
  }

  /** An URL with two marks: the path gets the first of them. */
  lemma SecondMark()
    ensures FirstMark("/a?b?c") == 2 && LastMark("/a?b?c") == 4
    ensures PathOf("/a?b?c") == "/a?b" && QueryOf("/a?b?c") == Some("c")
  {
    UptoIs("/a?b?c", '?', 2);
    LastMarkIs("/a?b?c", 4);
  }

  /** The scan of `http_request_split`, from the end of the text to its second character. */
  method Split(url: string) returns (path: string, query: Option<string>)
    ensures path == PathOf(url) && query == QueryOf(url)
  {
    var p, len := |url|, |url|;
    var found := false;
    while p > 0 && !found
      invariant 0 <= p <= |url| && forall j | p < j < |url| :: url[j] != '?'
      invariant if found then p < |url| && p == LastMark(url) else LastMark(url) == LastMarkFrom(url, p)
      decreases if found then 0 else 1 + p
    {
      if p < |url| && url[p] == '?' {
        found := true;
      } else {
        p := p - 1;
      }
    }
    if found { len := p; }
    path := url[..len];
    query := if found && len + 1 < |url| then Some(url[len + 1..]) else None;
  }
}
