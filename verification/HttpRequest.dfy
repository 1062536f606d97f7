/** The request line: taking it apart and putting it together (src/http.c). */
module RequestLines {
  import opened QueryStrings

  datatype Method = Method(name: string, group: nat)

  const METHODS: seq<Method> := [
    Method("GET", 0), Method("POST", 0), Method("HEAD", 0), Method("PUT", 1), Method("PATCH", 1), Method("DELETE", 1),
    Method("LOCK", 2), Method("UNLOCK", 2), Method("PROPFIND", 2), Method("PROPPATCH", 2), Method("SEARCH", 2),
    Method("MKCOL", 2), Method("MOVE", 2), Method("COPY", 2), Method("OPTIONS", 2), Method("TRACE", 2),
    Method("MKACTIVITY", 2), Method("CHECKOUT", 2), Method("MERGE", 2), Method("REPORT", 2),
    Method("SUBSCRIBE", 3), Method("UNSUBSCRIBE", 3), Method("BPROPPATCH", 3), Method("POLL", 3), Method("BMOVE", 3),
    Method("BCOPY", 3), Method("BDELETE", 3), Method("BPROPFIND", 3), Method("NOTIFY", 3), Method("CONNECT", 3)]

  function Lower(c: char): char { if 'A' <= c <= 'Z' then c + 'a' - 'A' else c }

  predicate SameNoCase(a: string, b: string) {
    |a| == |b| && forall i | 0 <= i < |a| :: Lower(a[i]) == Lower(b[i])
  }

  /** The two cases of one letter. */
  predicate Cases(upper: char, lower: char) { 'A' <= upper <= 'Z' && lower as int - upper as int == 'a' as int - 'A' as int }

  /** Case makes no difference between letters, and there is no other difference that is not made. */
  lemma LowerAlike(a: char, b: char)
    ensures Lower(a) == Lower(b) <==> a == b || Cases(a, b) || Cases(b, a)
  {
  }

  datatype Line =
    | Parsed(meth: string, url: string, version: char)
    | BadRequest
    | NotAllowed

  /** `find_method`: the first entry with that name, in any case; the length of the table if none. */
  function FindMethod(ms: seq<Method>, name: string): (i: nat)
    ensures i <= |ms| && (i < |ms| ==> SameNoCase(ms[i].name, name))
    ensures forall j | 0 <= j < i :: !SameNoCase(ms[j].name, name)
  {
    if ms == [] || SameNoCase(ms[0].name, name) then 0 else 1 + FindMethod(ms[1..], name)
  }

  function SkipSpaces(s: string): string {
    if s != "" && s[0] == ' ' then SkipSpaces(s[1..]) else s
  }

  /** `parse_http_request` */
  function ParseLine(ms: seq<Method>, line: string, group: nat): Line {
    var len := Upto(line, ' ');
    if len == 0 then BadRequest
    else
      var m := FindMethod(ms, line[..len]);
      var rest := SkipSpaces(line[len..]);
      if m == |ms| || rest == "" then BadRequest
      else
        var n := Upto(rest, ' ');
        var version := SkipSpaces(rest[n..]);
        if version != "HTTP/1.0" && version != "HTTP/1.1" then BadRequest
        else if ms[m].group > group then NotAllowed
        else Parsed(ms[m].name, rest[..n], version[7])
  }

  /** The line that `http_request_rebuild_line` makes. */
  function LineOf(name: string, url: string, version: char): string {
    name + " " + url + " HTTP/1." + [version]
  }

  /** A name in upper case, without spaces. */
  predicate Upper(s: string) { s != "" && forall i | 0 <= i < |s| :: 'A' <= s[i] <= 'Z' }

  predicate AllUpper(ms: seq<Method>) { forall i | 0 <= i < |ms| :: Upper(ms[i].name) }

  lemma UpperNames0()
    ensures Upper("GET") && Upper("POST") && Upper("HEAD") && Upper("PUT") && Upper("PATCH") && Upper("DELETE")
    ensures Upper("LOCK") && Upper("UNLOCK") && Upper("PROPFIND") && Upper("PROPPATCH") && Upper("SEARCH")
  {
  }

  lemma UpperNames1()
    ensures Upper("MKCOL") && Upper("MOVE") && Upper("COPY") && Upper("OPTIONS") && Upper("TRACE")
    ensures Upper("MKACTIVITY") && Upper("CHECKOUT") && Upper("MERGE") && Upper("REPORT")
  {
  }

  lemma UpperNames2()
    ensures Upper("SUBSCRIBE") && Upper("UNSUBSCRIBE") && Upper("BPROPPATCH") && Upper("POLL") && Upper("BMOVE")
    ensures Upper("BCOPY") && Upper("BDELETE") && Upper("BPROPFIND") && Upper("NOTIFY") && Upper("CONNECT")
  {
  }

  /** The names of the table are in upper case, so that no two differ in case only. */
  lemma TableIsUpper()
    ensures AllUpper(METHODS)
  {
    hide Upper;
    UpperNames0();
    UpperNames1();
    UpperNames2();
  }

  lemma UpperSame(a: string, b: string)
    requires Upper(a) && Upper(b) && SameNoCase(a, b)
    ensures a == b
  {
    forall i | 0 <= i < |a| ensures a[i] == b[i] {
      assert Lower(a[i]) == Lower(b[i]);
    }
  }

  lemma {:induction false} FindsItself(ms: seq<Method>, i: nat)
    requires AllUpper(ms) && i < |ms|
    ensures var m := FindMethod(ms, ms[i].name); m < |ms| && ms[m].name == ms[i].name
  {
    hide FindMethod, Upper;
    var j := FindMethod(ms, ms[i].name);
    assert SameNoCase(ms[i].name, ms[i].name);
    UpperSame(ms[j].name, ms[i].name);
  }

  lemma UpperHasNoSpace(s: string)
    requires Upper(s)
    ensures ' ' !in s && s != ""
  {
  }

  lemma {:induction false} NoLeadingSpace(s: string)
    ensures SkipSpaces(s) != "" ==> SkipSpaces(s)[0] != ' '
  {
    if s != "" && s[0] == ' ' { NoLeadingSpace(s[1..]); }
  }

  lemma {:induction false} ParsedUrlIsWord(ms: seq<Method>, line: string, group: nat)
    ensures var p := ParseLine(ms, line, group); p.Parsed? ==> p.url != "" && ' ' !in p.url
  {
    hide FindMethod;
    NoLeadingSpace(line[Upto(line, ' ')..]);
    hide SkipSpaces, Upto;
  }

  // Exactly which lines are requests.

  predicate Gap(s: string) { s != "" && forall i | 0 <= i < |s| :: s[i] == ' ' }

  predicate Word(s: string) { s != "" && ' ' !in s }

  /** A name, an URL and a version, with spaces between them. */
  ghost predicate Spelled(line: string, name: string, url: string, version: char) {
    exists a, b :: Gap(a) && Gap(b) && Spells(line, name, a, url, b, version)
  }

  predicate Spells(line: string, name: string, a: string, url: string, b: string, version: char) {
    Word(name) && Word(url) && (version == '0' || version == '1') && line == name + (a + (url + (b + ("HTTP/1." + [version]))))
  }

  /** What such a line is: no method of ours, one that the listener does not allow, or a request. */
  function Judged(ms: seq<Method>, group: nat, name: string, url: string, version: char): Line {
    var m := FindMethod(ms, name);
    if m == |ms| then BadRequest else if ms[m].group > group then NotAllowed else Parsed(ms[m].name, url, version)
  }

  lemma {:induction false} SkipGap(a: string, s: string)
    requires Gap(a) && s != "" && s[0] != ' '
    ensures SkipSpaces(a + s) == s
  {
    assert (a + s)[1..] == a[1..] + s && (a + s)[0] == ' ';
    if |a| > 1 {
      SkipGap(a[1..], s);
    } else {
      assert a[1..] + s == s;
    }
  }

  lemma {:induction false} WordThenGap(word: string, a: string, s: string)
    requires Word(word) && Gap(a) && s != "" && s[0] != ' '
    ensures var t := word + (a + s); Upto(t, ' ') == |word| && t[..|word|] == word && SkipSpaces(t[|word|..]) == s
  {
    var t := word + (a + s);
    assert t[|word|] == a[0] == ' ';
    UptoIs(t, ' ', |word|);
    assert t[|word|..] == a + s;
    hide Upto;
    SkipGap(a, s);
  }

  lemma {:induction false} SkippedGap(s: string) returns (a: string)
    requires s != "" && s[0] == ' '
    ensures Gap(a) && s == a + SkipSpaces(s)
  {
    if |s| > 1 && s[1] == ' ' {
      var b := SkippedGap(s[1..]);
      a := " " + b;
      assert s == " " + s[1..];
    } else {
      a := " ";
      assert s == " " + s[1..] && SkipSpaces(s[1..]) == s[1..];
    }
  }

  lemma SpelledParses(ms: seq<Method>, line: string, group: nat, name: string, a: string, url: string, b: string, version: char)
    requires Gap(a) && Gap(b) && Spells(line, name, a, url, b, version)
    ensures ParseLine(ms, line, group) == Judged(ms, group, name, url, version)
  {
    hide FindMethod, SkipSpaces, Upto, Gap;
    var v := "HTTP/1." + [version];
    assert v == if version == '0' then "HTTP/1.0" else "HTTP/1.1";
    var rest := url + (b + v);
    assert rest[0] == url[0];
    WordThenGap(name, a, rest);
    WordThenGap(url, b, v);
    assert v[7] == version;
  }

  /** A text up to its first space, the spaces, and what follows them. */
  lemma WordSplit(s: string) returns (word: string, a: string)
    requires s != "" && s[0] != ' ' && SkipSpaces(s[Upto(s, ' ')..]) != ""
    ensures word == s[..Upto(s, ' ')] && Word(word) && Gap(a)
    ensures s == word + (a + SkipSpaces(s[Upto(s, ' ')..]))
  {
    var n := Upto(s, ' ');
    word := s[..n];
    assert n < |s|;
    a := SkippedGap(s[n..]);
    hide Upto, SkipSpaces;
    assert s == s[..n] + s[n..];
  }

  lemma ParsesSpelled(ms: seq<Method>, line: string, group: nat) returns (name: string, url: string, version: char)
    requires !ParseLine(ms, line, group).BadRequest?
    ensures Spelled(line, name, url, version)
  {
    var n := Upto(line, ' ');
    var rest := SkipSpaces(line[n..]);
    NoLeadingSpace(line[n..]);
    var a, b;
    name, a := WordSplit(line);
    url, b := WordSplit(rest);
    var v := SkipSpaces(rest[Upto(rest, ' ')..]);
    version := v[7];
    assert v == "HTTP/1." + [version];
    hide Upto, SkipSpaces, FindMethod, Gap, Word;
    assert Spells(line, name, a, url, b, version);
  }

  /** Exactly which lines are requests, or requests that are not allowed; all others are bad. */
  lemma ParseLineIff(ms: seq<Method>, line: string, group: nat, p: Line)
    requires !p.BadRequest?
    ensures ParseLine(ms, line, group) == p <==>
              exists name, url, version :: Spelled(line, name, url, version) && p == Judged(ms, group, name, url, version)
  {
    hide ParseLine, Judged, Gap, Spells;
    if ParseLine(ms, line, group) == p {
      var name, url, version := ParsesSpelled(ms, line, group);
      var a, b :| Gap(a) && Gap(b) && Spells(line, name, a, url, b, version);
      SpelledParses(ms, line, group, name, a, url, b, version);
    }
    if name, url, version :| Spelled(line, name, url, version) && p == Judged(ms, group, name, url, version) {
      var a, b :| Gap(a) && Gap(b) && Spells(line, name, a, url, b, version);
      SpelledParses(ms, line, group, name, a, url, b, version);
    }
  }

  lemma {:induction false} LineParses(ms: seq<Method>, i: nat, url: string, version: char, group: nat)
    requires AllUpper(ms) && i < |ms| && (version == '0' || version == '1')
    requires ms[FindMethod(ms, ms[i].name)].group <= group
    requires url != "" && ' ' !in url
    ensures ParseLine(ms, LineOf(ms[i].name, url, version), group) == Parsed(ms[i].name, url, version)
  {
    hide FindMethod, Upper;
    var name := ms[i].name;
    UpperHasNoSpace(name);
    FindsItself(ms, i);
    assert LineOf(name, url, version) == name + (" " + (url + (" " + ("HTTP/1." + [version]))));
    SpelledParses(ms, LineOf(name, url, version), group, name, " ", url, " ", version);
    hide ParseLine;
  }

  lemma SampleNames()
    ensures SameNoCase("GET", "get") && SameNoCase("PUT", "PUT")
    ensures !SameNoCase("GET", "PUT") && !SameNoCase("POST", "PUT") && !SameNoCase("HEAD", "PUT")
  {
    assert Lower("GET"[0]) != Lower("PUT"[0]);
  }

  lemma SamplePlaces()
    ensures FindMethod(METHODS, "get") == 0 && METHODS[0] == Method("GET", 0)
    ensures FindMethod(METHODS, "PUT") == 3 && METHODS[3] == Method("PUT", 1)
  {
    hide FindMethod, SameNoCase;
    SampleNames();
    var p := FindMethod(METHODS, "PUT");
    assert METHODS[0].name == "GET" && METHODS[1].name == "POST" && METHODS[2].name == "HEAD" && METHODS[3].name == "PUT";
    assert SameNoCase(METHODS[3].name, "PUT");
  }

  /** Methods in any case, for a listener that allows them and for one that does not. */
  lemma SampleMethods(url: string, version: char)
    ensures Judged(METHODS, 0, "get", url, version) == Parsed("GET", url, version)
    ensures Judged(METHODS, 1, "PUT", url, version) == Parsed("PUT", url, version)
    ensures Judged(METHODS, 0, "PUT", url, version) == NotAllowed
  {
    hide FindMethod;
    SamplePlaces();
  }

  /** A rebuilt line parses to the method, the URL and the version it was made of if and only if the URL
      is neither empty nor has a space in it. */
  lemma {:induction false} LineRoundTripIff(ms: seq<Method>, i: nat, url: string, version: char, group: nat)
    requires AllUpper(ms) && i < |ms| && (version == '0' || version == '1')
    requires ms[FindMethod(ms, ms[i].name)].group <= group
    ensures ParseLine(ms, LineOf(ms[i].name, url, version), group) == Parsed(ms[i].name, url, version) <==>
              url != "" && ' ' !in url
  {
    ParsedUrlIsWord(ms, LineOf(ms[i].name, url, version), group);
    if url != "" && ' ' !in url { LineParses(ms, i, url, version, group); }
    hide *;
  }
}

/** A request with its derived forms: URL, path, query, query parameters and request line. */
module HttpRequests {
  import opened Options
  import opened QueryStrings
  import opened RequestLines

  /** The reference: every derived form is brought up to date by every operation. */
  datatype Eager = Eager(meth: string, version: char, line: string, orig: Option<string>,
                         url: string, path: string, query: Option<string>, params: seq<Param>)

  datatype Op =
    | GetLine | GetOrigLine | GetUrl | GetPath | GetQuery | GetParam(name: string)
    | SetUrl(url: string) | SetPath(path: string) | SetQuery(query: string)
    | SetParam(pname: string, value: Option<string>)

  datatype Answer =
    | Text(text: string)
    | Query(query: Option<string>)
    | Value(value: Option<Option<string>>)
    | Done

  function ParamsOf(query: Option<string>): seq<Param> { if query.Some? then Parse(query.value) else [] }

  /** A request as the request line gives it. */
  function Initial(meth: string, version: char, line: string, url: string): Eager {
    Eager(meth, version, line, None, url, PathOf(url), QueryOf(url), ParamsOf(QueryOf(url)))
  }

  /** A new URL: the line is made anew, and the first line is kept. */
  function Relined(r: Eager, url: string): Eager {
    r.(url := url, line := LineOf(r.meth, url, r.version), orig := if r.orig.Some? then r.orig else Some(r.line))
  }

  function Do(r: Eager, op: Op): Eager {
    match op
    case SetUrl(u) => Relined(r.(path := PathOf(u), query := QueryOf(u), params := ParamsOf(QueryOf(u))), u)
    case SetPath(p) => Relined(r.(path := p), Join(p, r.query))
    case SetQuery(q) => Relined(r.(query := Some(q), params := Parse(q)), Join(r.path, Some(q)))
    case SetParam(n, v) =>
      if v.None? && Find(r.params, n) == |r.params| then r
      else
        var ps := Assign(r.params, n, v);
        Relined(r.(params := ps, query := Some(Print(ps))), Join(r.path, Some(Print(ps))))
    case _ => r
  }

  function Reply(r: Eager, op: Op): Answer {
    match op
    case GetLine => Text(r.line)
    case GetOrigLine => Text(if r.orig.Some? then r.orig.value else r.line)
    case GetUrl => Text(r.url)
    case GetPath => Text(r.path)
    case GetQuery => Query(r.query)
    case GetParam(n) => Value(ValueOf(r.params, n))
    case _ => Done
  }

  function Run(r: Eager, ops: seq<Op>): Eager
    decreases |ops|
  {
    if ops == [] then r else Run(Do(r, ops[0]), ops[1..])
  }

  // What every run keeps.

  /** The URL is the path and the query, up to a last `?` that an URL with an empty query may keep. */
  predicate UrlAgrees(r: Eager) {
    r.url == Join(r.path, r.query) || (r.query.None? && r.url == r.path + "?")
  }

  /** The query is the text of the parameters, up to a last `&` that it was given with. */
  predicate QueryAgrees(r: Eager) {
    match r.query
    case None => r.params == []
    case Some(q) => q == Print(r.params) || (q == Print(r.params) + "&" && r.params == Parse(q))
  }

  /** Until the first change the line is the one received; from then on it is made of the method, the URL
      and the version, and the one received is kept. */
  predicate LineAgrees(r: Eager, meth: string, version: char, received: string) {
    && r.meth == meth && r.version == version
    && match r.orig
       case None => r.line == received
       case Some(o) => o == received && r.line == LineOf(meth, r.url, version)
  }

  predicate Agrees(r: Eager, meth: string, version: char, received: string) {
    UrlAgrees(r) && QueryAgrees(r) && LineAgrees(r, meth, version, received)
  }

  lemma SplitAgrees(r: Eager, url: string)
    requires r.url == url && r.path == PathOf(url) && r.query == QueryOf(url) && r.params == ParamsOf(r.query)
    ensures UrlAgrees(r) && QueryAgrees(r)
  {
    JoinSplit(url);
    if r.query.Some? { PrintParsed(r.query.value); }
  }

  lemma DoAgrees(r: Eager, op: Op, meth: string, version: char, received: string)
    requires Agrees(r, meth, version, received)
    ensures Agrees(Do(r, op), meth, version, received)
  {
    if op.SetUrl? {
      SplitAgrees(Do(r, op), op.url);
    } else if op.SetQuery? {
      PrintParsed(op.query);
    }
  }

  lemma {:induction false} RunAgrees(r: Eager, ops: seq<Op>, meth: string, version: char, received: string)
    requires Agrees(r, meth, version, received)
    ensures Agrees(Run(r, ops), meth, version, received)
    decreases |ops|
  {
    if ops != [] {
      DoAgrees(r, ops[0], meth, version, received);
      RunAgrees(Do(r, ops[0]), ops[1..], meth, version, received);
    }
  }

  /** In every run from a parsed request line the forms agree. */
  lemma AlwaysAgrees(meth: string, version: char, line: string, url: string, ops: seq<Op>)
    ensures Agrees(Run(Initial(meth, version, line, url), ops), meth, version, line)
  {
    SplitAgrees(Initial(meth, version, line, url), url);
    RunAgrees(Initial(meth, version, line, url), ops, meth, version, line);
  }

  /** What the backend makes of the URL: the same path, query and parameters as held here. */
  predicate ReadAlike(r: Eager) {
    PathOf(r.url) == r.path && QueryOf(r.url) == r.query && ParamsOf(QueryOf(r.url)) == r.params
  }

  lemma SetParamReadsAlike(r: Eager, name: string, value: Option<string>)
    requires value.Some? || Find(r.params, name) < |r.params|
    ensures var t := Do(r, SetParam(name, value));
            ReadAlike(t) <==> t.path != "" && t.params != [] && CleanList(t.params) && '?' !in Print(t.params)
  {
    var t := Do(r, SetParam(name, value));
    SplitJoinIff(t.path, t.query);
    ReadBackIff(t.params);
  }

  /** When a parameter can be set so that the URL still says what is held: the item set has no separator in it,
      and the item that will be last has a name or a value. */
  predicate CanSet(r: Eager, name: string, value: Option<string>) {
    var i, n := Find(r.params, name), |r.params|;
    match value
    case Some(v) =>
      && r.path != "" && Clean(Param(name, value)) && '?' !in name && '?' !in v
      && (i + 1 >= n || r.params[n - 1] != Param("", None))
    case None =>
      i < n && n > 1 && r.params[if i == n - 1 then n - 2 else n - 1] != Param("", None)
  }

  /** For a request whose URL says what is held here, setting or removing a parameter keeps that so if and only
      if the parameter can be set. */
  lemma SetParamReadAlikeIff(r: Eager, name: string, value: Option<string>)
    requires ReadAlike(r) && (value.Some? || Find(r.params, name) < |r.params|)
    ensures ReadAlike(Do(r, SetParam(name, value))) <==> CanSet(r, name, value)
  {
    hide ReadAlike, Parse, Print, Find, Clean, HasMark;
    var ps, qs := r.params, Assign(r.params, name, value);
    SetParamReadsAlike(r, name, value);
    AlikeClean(r);
    PrintMarks(qs);
    ItemMarks(Param(name, value));
    AssignItems(ps, name, value);
    if value.None? {
      assert qs != [] <==> |ps| > 1;
      if |ps| > 1 { AlikePath(r); }
    }
  }

  lemma AlikeClean(r: Eager)
    requires ReadAlike(r)
    ensures forall i | 0 <= i < |r.params| :: Clean(r.params[i]) && !HasMark(r.params[i])
  {
    hide Clean, HasMark, Parse, LastMark;
    if r.query.Some? {
      ParsedClean(r.query.value);
      QueryHasNoMark(r.url);
      ParsedMarks(r.query.value);
    }
  }

  lemma AlikePath(r: Eager)
    requires ReadAlike(r) && r.params != []
    ensures r.path != ""
  {
    hide LastMark;
  }

  /** After a path has been set, likewise. */
  lemma SetPathReadAlikeIff(r: Eager, path: string)
    ensures var t := Do(r, SetPath(path));
            ReadAlike(t) <==> Splittable(path, r.query) && r.params == ParamsOf(r.query)
  {
    SplitJoinIff(path, r.query);
  }

  /** A value with `&` in it, and a path with `?` in it: held as given, read differently. */
  lemma ReadDifferently(line: string)
    ensures var r := Initial("GET", '1', line, "/p?a=1");
            && ReadAlike(r) && !ReadAlike(Do(r, SetParam("a", Some("1&b"))))
            && Reply(Do(r, SetParam("a", Some("1&b"))), GetParam("a")) == Value(Some(Some("1&b")))
    ensures var r := Initial("GET", '1', line, "/p");
            ReadAlike(r) && !ReadAlike(Do(r, SetPath("/a?b"))) && Reply(Do(r, SetPath("/a?b")), GetPath) == Text("/a?b")
  {
    var r, u := Initial("GET", '1', line, "/p?a=1"), Initial("GET", '1', line, "/p");
    assert "1&b"[1] == '&';
    SetParamReadAlikeIff(r, "a", Some("1&b"));
    SetParamThenGet(r, "a", "1&b", "a");
    assert LastMark("/p") == 2;
    assert "/a?b"[1..][1] == '?';
    SetPathReadAlikeIff(u, "/a?b");
  }

  /** Setting a parameter: it reads back, and of the others no value and no order is changed. */
  lemma SetParamThenGet(r: Eager, name: string, v: string, other: string)
    ensures var t := Do(r, SetParam(name, Some(v)));
            && Reply(t, GetParam(name)) == Value(Some(Some(v)))
            && (other != name ==> Reply(t, GetParam(other)) == Reply(r, GetParam(other)))
            && t.path == r.path
  {
    AssignThenValue(r.params, name, v);
    AssignChanges(r.params, name, Some(v), other);
    FirstOfAll(r.params, other);
    FirstOfAll(Assign(r.params, name, Some(v)), other);
  }

  /** Removing a parameter: its first value goes, its other values and all other parameters stay. */
  lemma RemoveParamThenGet(r: Eager, name: string, other: string)
    ensures var t := Do(r, SetParam(name, None));
            && AllOf(t.params, name) == (if AllOf(r.params, name) == [] then [] else AllOf(r.params, name)[1..])
            && (other != name ==> Reply(t, GetParam(other)) == Reply(r, GetParam(other)))
            && Reply(t, GetPath) == Reply(r, GetPath)
  {
    hide AllOf;
    AssignChanges(r.params, name, None, name);
    AssignChanges(r.params, name, None, other);
    FirstOfAll(r.params, other);
    FirstOfAll(Assign(r.params, name, None), other);
    FirstOfAll(r.params, name);
  }

  /** Setting the URL: it reads back, and path and query are the parts of it before and after its last `?`. */
  lemma SetUrlThenGet(r: Eager, u: string)
    ensures var t := Do(r, SetUrl(u));
            && Reply(t, GetUrl) == Text(u)
            && match Reply(t, GetQuery).query
               case Some(q) => Reply(t, GetPath).text + "?" + q == u && q != "" && '?' !in q
               case None => Reply(t, GetPath) == Text(u) || Text(Reply(t, GetPath).text + "?") == Text(u)
  {
    JoinSplit(u);
    QueryHasNoMark(u);
    hide LastMark;
  }

  /** Setting the path: it reads back, the query and all parameters stay, and the URL is made of both. */
  lemma SetPathThenGet(r: Eager, p: string, name: string)
    ensures var t := Do(r, SetPath(p));
            && Reply(t, GetPath) == Text(p) && Reply(t, GetQuery) == Reply(r, GetQuery)
            && Reply(t, GetParam(name)) == Reply(r, GetParam(name))
            && match Reply(r, GetQuery).query
               case Some(q) => Reply(t, GetUrl) == Text(p + "?" + q)
               case None => Reply(t, GetUrl) == Text(p)
  {
  }

  /** Setting the query: it reads back, the path stays, the URL is made of both, and the parameters are those of
      the new query, whose text it is up to a last `&`. */
  lemma SetQueryThenGet(r: Eager, q: string)
    ensures var t := Do(r, SetQuery(q));
            && Reply(t, GetQuery) == Query(Some(q)) && Reply(t, GetPath) == Reply(r, GetPath)
            && Reply(t, GetUrl) == Text(Reply(r, GetPath).text + "?" + q)
            && (q == Print(t.params) || q == Print(t.params) + "&")
            && forall i | 0 <= i < |t.params| :: Clean(t.params[i])
  {
    PrintParsed(q);
    ParsedClean(q);
  }

  /** Setting a parameter makes the query its parameters' text, and the URL path and query. */
  lemma SetParamUrl(r: Eager, name: string, v: string)
    ensures var t := Do(r, SetParam(name, Some(v)));
            && Reply(t, GetQuery) == Query(Some(Print(t.params)))
            && Reply(t, GetUrl) == Text(Reply(r, GetPath).text + "?" + Print(t.params))
  {
  }

  predicate Sets(op: Op) { op.SetUrl? || op.SetPath? || op.SetQuery? || op.SetParam? }

  /** Asking changes nothing.  Whatever is set, the line received stays known, and the line is made of the method,
      the new URL and the version, unless there was nothing to remove. */
  lemma LineAfter(r: Eager, op: Op)
    ensures !Sets(op) ==> Do(r, op) == r
    ensures Reply(Do(r, op), GetOrigLine) == Reply(r, GetOrigLine)
    ensures Sets(op) ==>
              || (op.SetParam? && op.value.None? && Reply(r, GetParam(op.pname)) == Value(None) && Do(r, op) == r)
              || Reply(Do(r, op), GetLine) ==
                   Text(r.meth + " " + Reply(Do(r, op), GetUrl).text + " HTTP/1." + [r.version])
  {
  }

  /** The request as it is kept: path, query and parameters are found only when asked for. */
  class HttpRequest {
    const meth: string
    const version: char
    var line: string
    var orig: Option<string>
    var url: string
    var split: bool
    var path: string
    var query: Option<string>
    var params: seq<Param>

    /** What is held, once everything still to be found has been found. */
    ghost function View(): Eager
      reads this
    {
      if split then Eager(meth, version, line, orig, url, PathOf(url), QueryOf(url), ParamsOf(QueryOf(url)))
      else Eager(meth, version, line, orig, url, path, query, if params == [] then ParamsOf(query) else params)
    }

    /** `parse_http_request`, for a line that parses. */
    constructor (name: string, url: string, version: char, line: string)
      ensures View() == Initial(name, version, line, url)
    {
      meth, this.version, this.line, orig, this.url, split := name, version, line, None, url, true;
      path, query, params := "", None, [];
    }

    /** `http_request_split` */
    method SplitUrl()
      modifies this
      ensures View() == old(View()) && !split
    {
      if split {
        path, query := Split(url);
        params := [];
        split := false;
      }
    }

    /** `http_request_rebuild_line` */
    method RebuildLine()
      modifies this`line, this`orig
      ensures View() == Relined(old(View()), url)
    {
      if orig.None? { orig := Some(line); }
      line := LineOf(meth, url, version);
    }

    /** `http_request_rebuild_url` */
    method RebuildUrl()
      requires !split
      modifies this`line, this`orig, this`url
      ensures View() == Relined(old(View()), Join(path, query))
    {
      url := if query.Some? then path + "?" + query.value else path;
      RebuildLine();
    }

    /** `http_request_rebuild_query` */
    method RebuildQuery()
      requires !split
      modifies this
      ensures unchanged(`path) && unchanged(`params) && unchanged(`split) && query == Some(Print(params))
      ensures View() == Relined(old(View()).(query := query, params := params), Join(path, query))
    {
      var q := PrintQuery(params);
      query := Some(q);
      ghost var v := View();
      assert v == old(View()).(query := query, params := params);
      RebuildUrl();
    }

    /** The parameters, found if they are not yet. */
    method LoadParams()
      modifies this
      ensures View() == old(View()) && !split && params == View().params
    {
      SplitUrl();
      if params == [] && query.Some? {
        params := ParseQuery(query.value);
      }
    }

    /** Each operation changes the request and answers as the reference does. */
    method Perform(op: Op) returns (a: Answer)
      modifies this
      ensures View() == Do(old(View()), op) && a == Reply(old(View()), op)
    {
      hide PathOf, QueryOf, Parse, Print, Join, Assign, Find, LineOf;
      a := Done;
      match op {
        case GetLine => a := Text(line);
        case GetOrigLine => a := Text(if orig.Some? then orig.value else line);
        case GetUrl => a := Text(url);
        case GetPath => SplitUrl(); a := Text(path);
        case GetQuery => SplitUrl(); a := Query(query);
        case GetParam(n) =>
          LoadParams();
          var i := FindParam(params, n);
          a := Value(if i < |params| then Some(params[i].value) else None);
        case SetUrl(u) => SetUrlTo(u);
        case SetPath(p) => SetPathTo(p);
        case SetQuery(q) => SetQueryTo(q);
        case SetParam(n, v) => SetParamTo(n, v);
      }
    }

    /** `http_request_set_url` */
    method SetUrlTo(u: string)
      modifies this
      ensures View() == Do(old(View()), SetUrl(u))
    {
      url := u;
      split := true;
      RebuildLine();
    }

    /** `http_request_set_path` */
    method SetPathTo(p: string)
      modifies this
      ensures View() == Do(old(View()), SetPath(p))
    {
      hide PathOf, QueryOf, Parse, Print, Join, LineOf;
      SplitUrl();
      path := p;
      RebuildUrl();
    }

    /** `http_request_set_query` */
    method SetQueryTo(q: string)
      modifies this
      ensures View() == Do(old(View()), SetQuery(q))
    {
      hide PathOf, QueryOf, Parse, Print, Join, LineOf;
      SplitUrl();
      query := Some(q);
      params := [];
      RebuildUrl();
    }

    /** `http_request_set_query_param` */
    method SetParamTo(name: string, value: Option<string>)
      modifies this
      ensures View() == Do(old(View()), SetParam(name, value))
    {
      hide PathOf, QueryOf, Parse, Print, Join, LineOf, Find;
      LoadParams();
      var i := FindParam(params, name);
      if i == |params| {
        if value.None? { return; }
        params := params + [Param(name, value)];
      } else if value.None? {
        params := params[..i] + params[i + 1..];
      } else {
        params := params[i := Param(name, value)];
      }
      RebuildQuery();
    }
  }
}
