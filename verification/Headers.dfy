/** Reading the headers of a request, with those of many values combined (src/http.c). */
module Headers {
  import opened Options
  import opened Lengths
  import opened RequestLines

  datatype Header = Header(name: string, value: string, text: string)

  /** Characters of a field name: section 5.6.2 of RFC 9110, as the pattern for headers has them. */
  predicate TokenChar(c: char) {
    'a' <= c <= 'z' || 'A' <= c <= 'Z' || '0' <= c <= '9' || c in "!#$%&'*+.^_`|~-"
  }

  /** These are the visible characters of ASCII that are not delimiters. */
  lemma TokenIsNoDelimiter(c: char)
    ensures TokenChar(c) <==> '!' <= c <= '~' && c !in "\"(),/:;<=>?@[\\]{}"
  {
    var tokens, delimiters := "!#$%&'*+.^_`|~-", "\"(),/:;<=>?@[\\]{}";
    assert forall i | 0 <= i < |tokens| :: tokens[i] !in delimiters;
  }

  predicate Token(s: string) { s != "" && forall i | 0 <= i < |s| :: TokenChar(s[i]) }

  function TokenEnd(s: string): (n: nat)
    ensures n <= |s| && (n < |s| ==> !TokenChar(s[n])) && forall i | 0 <= i < n :: TokenChar(s[i])
  {
    if s == "" || !TokenChar(s[0]) then 0 else 1 + TokenEnd(s[1..])
  }

  /** A header line: a name, a colon, blanks and the value; anything else is illegal. */
  function ParseHeader(line: string): (h: Option<Header>)
    ensures h.Some? ==> Token(h.value.name) && Trimmed(h.value.value) && h.value.text == line
  {
    var n := TokenEnd(line);
    if n == 0 || n == |line| || line[n] != ':' then None
    else
      SkipTwice(line[n + 1..]);
      Some(Header(line[..n], SkipBlanks(line[n + 1..]), line))
  }

  /** The line is a name, a colon, blanks and a value that does not start with one. */
  ghost predicate HeaderOf(line: string, h: Header) {
    && h.text == line && Token(h.name) && Trimmed(h.value)
    && exists b :: Blank(b) && line == h.name + ":" + (b + h.value)
  }

  lemma {:induction false} ParsedHeaderOf(line: string)
    requires ParseHeader(line).Some?
    ensures HeaderOf(line, ParseHeader(line).value)
  {
    hide SkipBlanks, TokenEnd, Token, Blank, Trimmed;
    var n := TokenEnd(line);
    var b := SkippedBlanks(line[n + 1..]);
    assert line == line[..n] + ":" + line[n + 1..];
  }

  lemma {:induction false} HeaderOfParses(line: string, h: Header, b: string)
    requires h.text == line && Token(h.name) && Trimmed(h.value) && Blank(b) && line == h.name + ":" + (b + h.value)
    ensures ParseHeader(line) == Some(h)
  {
    hide SkipBlanks, TokenEnd, Trimmed, Blank, TokenChar;
    var n := |h.name|;
    assert line[..n] == h.name && line[n] == ':' && line[n + 1..] == b + h.value;
    NameEnds(line, h.name, b + h.value);
    BlanksSkipped(b, h.value);
  }

  lemma {:induction false} NameEnds(line: string, name: string, rest: string)
    requires Token(name) && line == name + ":" + rest
    ensures TokenEnd(line) == |name| > 0
  {
    TokenEndIs(line, |name|);
  }

  /** Exactly which lines are headers, and of what. */
  lemma ParseHeaderIff(line: string, h: Header)
    ensures ParseHeader(line) == Some(h) <==> HeaderOf(line, h)
  {
    hide SkipBlanks, TokenEnd, ParseHeader, Token, Trimmed, Blank;
    if ParseHeader(line) == Some(h) { ParsedHeaderOf(line); }
    if HeaderOf(line, h) {
      var b :| Blank(b) && line == h.name + ":" + (b + h.value);
      HeaderOfParses(line, h, b);
    }
  }

  /** A name without regard to case. */
  function Fold(s: string): string { seq(|s|, i requires 0 <= i < |s| => Lower(s[i])) }

  function Join(values: seq<string>): string
  {
    if values == [] then ""
    else if |values| == 1 then values[0]
    else Join(values[..|values| - 1]) + ", " + values[|values| - 1]
  }

  function Text(name: string, value: string): string { name + ": " + value }

  lemma {:induction false} TokenEndIs(s: string, n: nat)
    requires n <= |s| && (n < |s| ==> !TokenChar(s[n])) && forall i | 0 <= i < n :: TokenChar(s[i])
    ensures TokenEnd(s) == n
  {
  }

  /** A header made of a name and a value is a header with them. */
  lemma {:induction false} MadeHeader(name: string, value: string)
    requires Token(name) && Trimmed(value)
    ensures ParseHeader(Text(name, value)) == Some(Header(name, value, Text(name, value)))
  {
    var s, n := Text(name, value), |name|;
    assert s[..n] == name && s[n] == ':' && s[n + 1..] == " " + value;
    assert (" " + value)[1..] == value;
    TokenEndIs(s, n);
    hide TokenEnd;
  }

  // What the result is: the first header of each name that is combined, with all its values, and every other.

  predicate Combined(names: set<string>, h: Header) { Fold(h.name) in names }

  predicate Has(hs: seq<Header>, k: string) { exists i | 0 <= i < |hs| :: Fold(hs[i].name) == k }

  function ValuesOf(hs: seq<Header>, k: string): seq<string> {
    if hs == [] then []
    else
      var h := hs[|hs| - 1];
      ValuesOf(hs[..|hs| - 1], k) + if Fold(h.name) == k then [h.value] else []
  }

  function Kept(names: set<string>, hs: seq<Header>): seq<Header> {
    if hs == [] then []
    else
      var h, before := hs[|hs| - 1], hs[..|hs| - 1];
      Kept(names, before) + if Combined(names, h) && Has(before, Fold(h.name)) then [] else [h]
  }

  /** A header with all the values of its name. */
  function Whole(names: set<string>, h: Header, hs: seq<Header>): Header {
    if Combined(names, h) then
      var v := Join(ValuesOf(hs, Fold(h.name)));
      Header(h.name, v, Text(h.name, v))
    else h
  }

  function WholeAll(names: set<string>, ks: seq<Header>, hs: seq<Header>): (r: seq<Header>)
    ensures |r| == |ks| && forall i | 0 <= i < |ks| :: r[i] == Whole(names, ks[i], hs)
  {
    if ks == [] then [] else WholeAll(names, ks[..|ks| - 1], hs) + [Whole(names, ks[|ks| - 1], hs)]
  }

  function Combine(names: set<string>, hs: seq<Header>): seq<Header> { WholeAll(names, Kept(names, hs), hs) }

  /** The legal headers among some lines. */
  function Legal(lines: seq<string>): seq<Header> {
    if lines == [] then []
    else
      var h := ParseHeader(lines[|lines| - 1]);
      Legal(lines[..|lines| - 1]) + if h.Some? then [h.value] else []
  }

  // What it means: section 3.2.2 of RFC 7230, the value of a field is that of its headers, joined.

  function FieldValue(hs: seq<Header>, k: string): Option<string> {
    if Has(hs, k) then Some(Join(ValuesOf(hs, k))) else None
  }

  lemma HasSnoc(hs: seq<Header>, h: Header, k: string)
    ensures Has(hs + [h], k) <==> Has(hs, k) || Fold(h.name) == k
  {
    if Has(hs, k) {
      var i :| 0 <= i < |hs| && Fold(hs[i].name) == k;
      assert Fold((hs + [h])[i].name) == k;
    }
    assert (hs + [h])[|hs|] == h;
  }

  lemma ValuesSnoc(hs: seq<Header>, h: Header, k: string)
    ensures ValuesOf(hs + [h], k) == if Fold(h.name) == k then ValuesOf(hs, k) + [h.value] else ValuesOf(hs, k)
  {
    assert (hs + [h])[..|hs|] == hs;
  }

  lemma KeptSnoc(names: set<string>, hs: seq<Header>, h: Header)
    ensures Kept(names, hs + [h]) ==
              if Combined(names, h) && Has(hs, Fold(h.name)) then Kept(names, hs) else Kept(names, hs) + [h]
  {
    assert (hs + [h])[..|hs|] == hs;
  }

  lemma {:induction false} HasValues(hs: seq<Header>, k: string)
    ensures Has(hs, k) <==> ValuesOf(hs, k) != []
  {
    if hs != [] {
      var n := |hs| - 1;
      assert hs == hs[..n] + [hs[n]];
      HasSnoc(hs[..n], hs[n], k);
      HasValues(hs[..n], k);
    }
  }

  /** A name that is not combined keeps its headers. */
  lemma {:induction false} OthersKept(names: set<string>, hs: seq<Header>, k: string)
    requires k !in names
    ensures ValuesOf(Kept(names, hs), k) == ValuesOf(hs, k)
  {
    if hs != [] {
      var n, before := |hs| - 1, hs[..|hs| - 1];
      assert hs == before + [hs[n]];
      OthersKept(names, before, k);
      KeptSnoc(names, before, hs[n]);
      ValuesSnoc(Kept(names, before), hs[n], k);
    }
  }

  /** A name that is combined keeps its first header only. */
  lemma {:induction false} FirstKept(names: set<string>, hs: seq<Header>, k: string)
    requires k in names
    ensures |ValuesOf(Kept(names, hs), k)| == if Has(hs, k) then 1 else 0
  {
    if hs != [] {
      var n, before := |hs| - 1, hs[..|hs| - 1];
      assert hs == before + [hs[n]];
      HasSnoc(before, hs[n], k);
      FirstKept(names, before, k);
      KeptSnoc(names, before, hs[n]);
      ValuesSnoc(Kept(names, before), hs[n], k);
      hide Kept, ValuesOf, Has, Fold;
    }
  }

  lemma {:induction false} WholeValues(names: set<string>, ks: seq<Header>, hs: seq<Header>, k: string)
    ensures k !in names ==> ValuesOf(WholeAll(names, ks, hs), k) == ValuesOf(ks, k)
    ensures k in names ==> |ValuesOf(WholeAll(names, ks, hs), k)| == |ValuesOf(ks, k)|
    ensures k in names ==>
              forall i | 0 <= i < |ValuesOf(ks, k)| :: ValuesOf(WholeAll(names, ks, hs), k)[i] == Join(ValuesOf(hs, k))
  {
    if ks != [] {
      var n := |ks| - 1;
      WholeValues(names, ks[..n], hs, k);
      ValuesSnoc(WholeAll(names, ks[..n], hs), Whole(names, ks[n], hs), k);
      hide Join, Fold;
    }
  }

  /** Combining changes the value of no field. */
  lemma CombineKeepsFields(names: set<string>, hs: seq<Header>, k: string)
    ensures FieldValue(Combine(names, hs), k) == FieldValue(hs, k)
  {
    var ks, r := Kept(names, hs), Combine(names, hs);
    WholeValues(names, ks, hs, k);
    HasValues(r, k);
    HasValues(hs, k);
    if k in names {
      FirstKept(names, hs, k);
    } else {
      OthersKept(names, hs, k);
    }
    hide Kept, WholeAll, Has;
  }

  /** After combining, no two headers have the same combined name. */
  lemma CombinedOnce(names: set<string>, hs: seq<Header>, k: string)
    requires k in names
    ensures |ValuesOf(Combine(names, hs), k)| <= 1
  {
    WholeValues(names, Kept(names, hs), hs, k);
    FirstKept(names, hs, k);
  }

  // The reader, in one pass.

  /** The text of a combined header, as far as it has been read, and its place in the list. */
  datatype Composed = Composed(at: nat, text: string)

  predicate LegalAll(hs: seq<Header>) { forall i | 0 <= i < |hs| :: Token(hs[i].name) && Trimmed(hs[i].value) }

  /** Values are joined in their order, with a comma and a space between two. */
  lemma JoinSnoc(vs: seq<string>, v: string)
    ensures Join(vs + [v]) == if vs == [] then v else Join(vs) + ", " + v
  {
    assert (vs + [v])[..|vs|] == vs;
  }

  lemma TextGrows(name: string, vs: seq<string>, v: string)
    requires vs != []
    ensures Text(name, Join(vs + [v])) == Text(name, Join(vs)) + ", " + v
  {
    JoinSnoc(vs, v);
    hide Join;
    var j := Join(vs);
    assert name + ": " + (j + ", " + v) == name + ": " + j + ", " + v;
  }

  lemma {:induction false} JoinTrimmed(vs: seq<string>)
    requires forall i | 0 <= i < |vs| :: Trimmed(vs[i])
    ensures Trimmed(Join(vs)) && (|vs| > 1 ==> Join(vs) != "")
  {
    if |vs| > 1 {
      var n := |vs| - 1;
      JoinTrimmed(vs[..n]);
      StillTrimmed(Join(vs[..n]), vs[n]);
    }
  }

  lemma {:induction false} StillTrimmed(a: string, v: string)
    requires Trimmed(a)
    ensures Trimmed(a + ", " + v)
  {
    var s := a + ", " + v;
    if a == "" { assert s[0] == ','; } else { FirstIsNoBlank(a); assert s[0] == a[0]; }
  }

  lemma {:induction false} FirstIsNoBlank(s: string)
    requires Trimmed(s) && s != ""
    ensures s[0] != ' ' && s[0] != '\t'
  {
    SkipShortens(s);
  }

  lemma {:induction false} SkipShortens(s: string)
    ensures |SkipBlanks(s)| <= |s| && (s != "" && (s[0] == ' ' || s[0] == '\t') ==> |SkipBlanks(s)| < |s|)
  {
    if s != "" && (s[0] == ' ' || s[0] == '\t') { SkipShortens(s[1..]); }
  }

  lemma {:induction false} ValuesTrimmed(hs: seq<Header>, k: string)
    requires LegalAll(hs)
    ensures forall i | 0 <= i < |ValuesOf(hs, k)| :: Trimmed(ValuesOf(hs, k)[i])
  {
    if hs != [] {
      var n := |hs| - 1;
      assert LegalAll(hs[..n]) && Trimmed(hs[n].value);
      ValuesTrimmed(hs[..n], k);
      hide Trimmed;
    }
  }

  /** Each composed header stands at its place, with the values read so far. */
  predicate ComposedRight(names: set<string>, hs: seq<Header>, list: seq<Header>, comps: map<string, Composed>) {
    forall k | k in comps ::
      && k in names && Has(hs, k) && comps[k].at < |list| && Fold(list[comps[k].at].name) == k
      && comps[k].text == Text(list[comps[k].at].name, Join(ValuesOf(hs, k)))
  }

  /** Every combined header in the list is a composed one. */
  predicate AllComposed(names: set<string>, list: seq<Header>, comps: map<string, Composed>) {
    forall i | 0 <= i < |list| && Combined(names, list[i]) :: Fold(list[i].name) in comps && comps[Fold(list[i].name)].at == i
  }

  ghost predicate Reading(names: set<string>, hs: seq<Header>, list: seq<Header>, comps: map<string, Composed>) {
    && LegalAll(hs) && list == Kept(names, hs)
    && (forall k | k in names && Has(hs, k) :: k in comps)
    && ComposedRight(names, hs, list, comps) && AllComposed(names, list, comps)
  }

  lemma LegalSnoc(hs: seq<Header>, h: Header)
    requires LegalAll(hs) && Token(h.name) && Trimmed(h.value)
    ensures LegalAll(hs + [h])
  {
  }

  /** A further value of a name that has been read before. */
  lemma ReadMore(names: set<string>, hs: seq<Header>, list: seq<Header>, comps: map<string, Composed>, h: Header)
    requires Reading(names, hs, list, comps) && Token(h.name) && Trimmed(h.value) && Fold(h.name) in comps
    ensures var k := Fold(h.name);
            Reading(names, hs + [h], list, comps[k := comps[k].(text := comps[k].text + ", " + h.value)])
  {
    hide Fold, Text, Join, Token, Trimmed, Has, ValuesOf, Kept;
    var k := Fold(h.name);
    var new_ := comps[k := comps[k].(text := comps[k].text + ", " + h.value)];
    LegalSnoc(hs, h);
    KeptSnoc(names, hs, h);
    HasValues(hs, k);
    TextGrows(list[comps[k].at].name, ValuesOf(hs, k), h.value);
    forall l ensures Has(hs + [h], l) <==> Has(hs, l) || l == k { HasSnoc(hs, h, l); }
    forall l | l in new_ ensures ValuesOf(hs + [h], l) == if l == k then ValuesOf(hs, l) + [h.value] else ValuesOf(hs, l) {
      ValuesSnoc(hs, h, l);
    }
  }

  /** The first header of a name that is combined. */
  lemma ReadFirst(names: set<string>, hs: seq<Header>, list: seq<Header>, comps: map<string, Composed>, h: Header)
    requires Reading(names, hs, list, comps) && Token(h.name) && Trimmed(h.value)
    requires Combined(names, h) && Fold(h.name) !in comps
    ensures Reading(names, hs + [h], list + [h], comps[Fold(h.name) := Composed(|list|, Text(h.name, h.value))])
  {
    hide Fold, Text, Join, Token, Trimmed, Has, ValuesOf, Kept;
    var k := Fold(h.name);
    LegalSnoc(hs, h);
    KeptSnoc(names, hs, h);
    HasValues(hs, k);
    JoinSnoc([], h.value);
    assert [] + [h.value] == [h.value];
    forall l ensures Has(hs + [h], l) <==> Has(hs, l) || l == k { HasSnoc(hs, h, l); }
    forall l ensures ValuesOf(hs + [h], l) == if l == k then ValuesOf(hs, l) + [h.value] else ValuesOf(hs, l) {
      ValuesSnoc(hs, h, l);
    }
  }

  /** A header that is not combined. */
  lemma ReadOther(names: set<string>, hs: seq<Header>, list: seq<Header>, comps: map<string, Composed>, h: Header)
    requires Reading(names, hs, list, comps) && Token(h.name) && Trimmed(h.value) && !Combined(names, h)
    ensures Reading(names, hs + [h], list + [h], comps)
  {
    hide Fold, Text, Join, Token, Trimmed, Has, ValuesOf, Kept;
    LegalSnoc(hs, h);
    KeptSnoc(names, hs, h);
    forall l ensures Has(hs + [h], l) <==> Has(hs, l) || l == Fold(h.name) { HasSnoc(hs, h, l); }
    forall l ensures l != Fold(h.name) ==> ValuesOf(hs + [h], l) == ValuesOf(hs, l) { ValuesSnoc(hs, h, l); }
  }

  /** The headers read of a request. */
  class HeaderList {
    const names: set<string>
    var list: seq<Header>
    var composed: map<string, Composed>

    constructor (combinable: set<string>)
      ensures names == combinable && Reading(names, [], list, composed)
    {
      names, list, composed := combinable, [], map[];
    }

    /** One turn of the loop of `http_request_read`. */
    method Add(line: string, ghost hs: seq<Header>)
      requires Reading(names, hs, list, composed)
      modifies this
      ensures var h := ParseHeader(line);
              Reading(names, if h.Some? then hs + [h.value] else hs, list, composed)
    {
      hide Reading, Fold, Text, ParseHeader;
      var p := ParseHeader(line);
      if p.None? { return; }
      var h := p.value;
      var k := Fold(h.name);
      if Combined(names, h) {
        if k in composed {
          ReadMore(names, hs, list, composed, h);
          composed := composed[k := composed[k].(text := composed[k].text + ", " + h.value)];
          return;
        }
        ReadFirst(names, hs, list, composed, h);
        composed := composed[k := Composed(|list|, Text(h.name, h.value))];
      } else {
        ReadOther(names, hs, list, composed, h);
      }
      list := list + [h];
    }

    /** The composed headers get their text; they may be taken in any order. */
    method Finish(ghost hs: seq<Header>)
      requires Reading(names, hs, list, composed)
      modifies this
      ensures list == Combine(names, hs)
    {
      hide Fold, Text, Join, Token, Trimmed, Has, ValuesOf, Kept, ParseHeader, Whole;
      var todo := composed.Keys;
      NoneFinished(names, hs, composed);
      while todo != {}
        invariant todo <= composed.Keys && |list| == |Kept(names, hs)| && composed == old(composed)
        invariant forall i | 0 <= i < |list| :: list[i] == Finished(names, hs, todo, i)
        decreases todo
      {
        var k :| k in todo;
        ComposedParses(names, hs, composed, k);
        var c := composed[k];
        list := list[c.at := ParseHeader(c.text).value];
        FinishedNext(names, hs, composed, todo, k);
        todo := todo - {k};
      }
      AllFinished(names, hs);
    }

    /** `http_request_read`, for the lines between the request line and the empty line. */
    method ReadAll(lines: seq<string>)
      requires list == [] && composed == map[]
      modifies this
      ensures list == Combine(names, Legal(lines))
    {
      hide Reading, ParseHeader, Combine;
      ReadNone(names);
      for i := 0 to |lines|
        invariant Reading(names, Legal(lines[..i]), list, composed)
      {
        assert lines[..i + 1][..i] == lines[..i];
        assert Legal(lines[..i]) + [] == Legal(lines[..i]);
        Add(lines[i], Legal(lines[..i]));
      }
      assert lines[..|lines|] == lines;
      Finish(Legal(lines));
    }
  }

  lemma ReadNone(names: set<string>)
    ensures Reading(names, [], [], map[])
  {
  }

  /** The header at place `i` while the names in `todo` are still to be finished. */
  function Finished(names: set<string>, hs: seq<Header>, todo: set<string>, i: nat): Header
    requires i < |Kept(names, hs)|
  {
    var h := Kept(names, hs)[i];
    if Fold(h.name) in todo then h else Whole(names, h, hs)
  }

  lemma {:induction false} KeptLegal(names: set<string>, hs: seq<Header>)
    requires LegalAll(hs)
    ensures LegalAll(Kept(names, hs))
  {
    if hs != [] {
      var n := |hs| - 1;
      assert LegalAll(hs[..n]);
      KeptLegal(names, hs[..n]);
    }
  }

  /** A composed text is a header with all the values of its name. */
  lemma ComposedParses(names: set<string>, hs: seq<Header>, comps: map<string, Composed>, k: string)
    requires Reading(names, hs, Kept(names, hs), comps) && k in comps
    ensures var c := comps[k]; c.at < |Kept(names, hs)| && ParseHeader(c.text) == Some(Whole(names, Kept(names, hs)[c.at], hs))
  {
    hide Fold, Text, Join, Token, Trimmed, Has, ValuesOf, Kept, ParseHeader;
    var h := Kept(names, hs)[comps[k].at];
    KeptLegal(names, hs);
    ValuesTrimmed(hs, k);
    JoinTrimmed(ValuesOf(hs, k));
    MadeHeader(h.name, Join(ValuesOf(hs, k)));
  }

  lemma FinishedNext(names: set<string>, hs: seq<Header>, comps: map<string, Composed>, todo: set<string>, k: string)
    requires Reading(names, hs, Kept(names, hs), comps) && k in todo && todo <= comps.Keys
    ensures forall i | 0 <= i < |Kept(names, hs)| ::
              Finished(names, hs, todo - {k}, i) ==
                if i == comps[k].at then Whole(names, Kept(names, hs)[i], hs) else Finished(names, hs, todo, i)
  {
    hide Fold, Text, Join, Token, Trimmed, Has, ValuesOf, Kept, Whole;
  }

  lemma NoneFinished(names: set<string>, hs: seq<Header>, comps: map<string, Composed>)
    requires Reading(names, hs, Kept(names, hs), comps)
    ensures forall i | 0 <= i < |Kept(names, hs)| :: Finished(names, hs, comps.Keys, i) == Kept(names, hs)[i]
  {
    hide Fold, Text, Join, Token, Trimmed, Has, ValuesOf, Kept;
  }

  lemma AllFinished(names: set<string>, hs: seq<Header>)
    ensures forall i | 0 <= i < |Kept(names, hs)| :: Finished(names, hs, {}, i) == Combine(names, hs)[i]
  {
  }
}
