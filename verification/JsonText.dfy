/** String escapes and integer numerals (`escape`, `json_format_escape`, `j_get_text` and the
    number formats in src/json.c).

    A C string is a `string` without NUL; reading at or past its end gives NUL. */
module JsonText {
  import opened Options

  const NUL: char := '\0'
  const BS: char := '\U{08}'
  const FF: char := '\U{0C}'

  function At(s: string, i: nat): char { if i < |s| then s[i] else NUL }

  function Drop(s: string, i: nat): (r: string)
    ensures |r| == if i < |s| then |s| - i else 0
  {
    if i < |s| then s[i..] else ""
  }

  function Escaped(c: char): Option<char> {
    if c == '\\' then Some('\\')
    else if c == '"' then Some('"')
    else if c == BS then Some('b')
    else if c == FF then Some('f')
    else if c == '\n' then Some('n')
    else if c == '\r' then Some('r')
    else if c == '\t' then Some('t')
    else None
  }

  function Unescaped(c: char): Option<char> {
    if c == '\\' then Some('\\')
    else if c == '"' then Some('"')
    else if c == 'b' then Some(BS)
    else if c == 'f' then Some(FF)
    else if c == 'n' then Some('\n')
    else if c == 'r' then Some('\r')
    else if c == 't' then Some('\t')
    else None
  }

  const TRANSTAB: string := ['\\', '\\', '"', '"', 'b', BS, 'f', FF, 'n', '\n', 'r', '\r', 't', '\t', '/', '/']

  function Source(j: nat, un: bool): char
    requires j + 1 < |TRANSTAB|
  {
    TRANSTAB[if un then j else j + 1]
  }

  /** `escape`: the loop ends one pair early, so '/' is never translated. */
  method Translate(c: char, un: bool) returns (r: Option<char>)
    ensures r == if un then Unescaped(c) else Escaped(c)
  {
    var p := 0;
    while p + 2 < |TRANSTAB|
      invariant 0 <= p <= 14 && p % 2 == 0
      invariant forall j | 0 <= j < p && j % 2 == 0 :: Source(j, un) != c
    {
      if Source(p, un) == c {
        return Some(TRANSTAB[if un then p + 1 else p]);
      }
      p := p + 2;
    }
    assert Source(0, un) != c && Source(2, un) != c && Source(4, un) != c && Source(6, un) != c;
    assert Source(8, un) != c && Source(10, un) != c && Source(12, un) != c;
    return None;
  }

  function EscapeChar(c: char): string {
    match Escaped(c)
    case Some(e) => ['\\', e]
    case None => [c]
  }

  function EscapeText(s: string): string {
    if s == [] then [] else EscapeChar(s[0]) + EscapeText(s[1..])
  }

  /** `json_format_escape` */
  function Quoted(s: string): string { "\"" + EscapeText(s) + "\"" }

  /** `ISHEX`: `strchr` also finds the terminating NUL. */
  predicate IsHex(c: char) {
    '0' <= c <= '9' || 'a' <= c <= 'f' || 'A' <= c <= 'F' || c == NUL
  }

  predicate FourHex(s: string, i: nat) {
    IsHex(At(s, i)) && IsHex(At(s, i + 1)) && IsHex(At(s, i + 2)) && IsHex(At(s, i + 3))
  }

  /** First pass over the text after the opening quote: the number of characters to store, or
      None for a text that is not closed.  Four hex digits after a backslash are taken for one
      code point (`utf8_wctomb` is given the backslash itself, so the count is always 1) and
      the loop then skips one byte more. */
  function SizePass(s: string): Option<nat>
    decreases |s|
  {
    var c := At(s, 0);
    if c == '"' then Some(0)
    else if c == NUL then None
    else
      var next :=
        if c != '\\' then Drop(s, 1)
        else if FourHex(s, 1) then Drop(s, 6)
        else Drop(s, 2);
      if c == '\\' && !FourHex(s, 1) && At(s, 1) == NUL then None
      else
        var r := SizePass(next);
        if r.None? then None else Some(r.value + 1)
  }

  /** `RunsOff`: the second pass leaves the string; `Outside`: a hex escape, which is not modelled. */
  datatype Copied = Copied(text: string, rest: string) | RunsOff | Outside

  /** Second pass: the characters stored, and the input after the closing quote. */
  function CopyPass(s: string): Copied
    decreases |s|
  {
    var c := At(s, 0);
    if c == NUL then RunsOff
    else if c == '"' then Copied([], s[1..])
    else if c != '\\' then Stored(c, CopyPass(Drop(s, 1)))
    else
      var e := At(s, 1);
      match Unescaped(e)
      case Some(o) => Stored(o, CopyPass(Drop(s, 2)))
      case None =>
        if FourHex(s, 1) then Outside
        else if e == NUL then RunsOff
        else Stored(e, CopyPass(Drop(s, 2)))
  }

  function Stored(c: char, r: Copied): Copied {
    if r.Copied? then r.(text := [c] + r.text) else r
  }

  /** `Overrun`: the text does not fit the buffer that the first pass sized. */
  datatype TextResult = Text(text: string, rest: string) | BadString | Overrun | NotModelled

  /** `j_get_text`, on the input after the opening quote. */
  function GetText(s: string): TextResult {
    match SizePass(s)
    case None => BadString
    case Some(size) =>
      match CopyPass(s)
      case Outside => NotModelled
      case RunsOff => Overrun
      case Copied(text, rest) => if |text| > size then Overrun else Text(text, rest)
  }

  predicate NoNul(s: string) { forall i | 0 <= i < |s| :: s[i] != NUL }

  /** The three characters at the start look like the rest of a hex escape. */
  predicate HexNext(s: string) {
    |s| >= 3 && IsHex(s[0]) && IsHex(s[1]) && IsHex(s[2])
  }

  predicate Misread(c: char) { c == BS || c == FF }

  /** No backspace or form feed is followed by three hex digits. */
  predicate NoHexRun(s: string) {
    s == [] || (!(Misread(s[0]) && HexNext(s[1..])) && NoHexRun(s[1..]))
  }

  // Reading back what was printed.

  /** Printed text after the opening quote, up to and including the closing one, then `rest`. */
  function Closed(s: string, rest: string): (t: string)
    ensures |t| > 0
  {
    EscapeText(s) + "\"" + rest
  }

  /** The short escapes of section 7 of RFC 8259, as they are written; `/` is written as it is. */
  lemma RfcEscapes(c: char)
    ensures EscapeText("\"") == "\\\"" && EscapeText("\\") == "\\\\"
    ensures EscapeText(['\U{08}']) == "\\b" && EscapeText(['\U{0C}']) == "\\f"
    ensures EscapeText("\n") == "\\n" && EscapeText("\r") == "\\r" && EscapeText("\t") == "\\t"
    ensures c !in {'"', '\\', '\U{08}', '\U{0C}', '\n', '\r', '\t'} ==> EscapeText([c]) == [c]
  {
    forall x ensures EscapeText([x]) == EscapeChar(x) { OneEscaped(x); }
    hide EscapeText;
  }

  /** The same, as they are read. */
  lemma RfcUnescapes(c: char)
    ensures Unescaped('"') == Some('"') && Unescaped('\\') == Some('\\')
    ensures Unescaped('b') == Some('\U{08}') && Unescaped('f') == Some('\U{0C}')
    ensures Unescaped('n') == Some('\n') && Unescaped('r') == Some('\r') && Unescaped('t') == Some('\t')
    ensures c !in {'"', '\\', 'b', 'f', 'n', 'r', 't'} ==> Unescaped(c) == None
  {
  }

  lemma OneEscaped(c: char)
    ensures EscapeText([c]) == EscapeChar(c)
  {
    assert [c][1..] == [] && EscapeText([]) == [];
  }

  lemma EscapedCases(c: char)
    ensures Escaped(c).Some? ==> Unescaped(Escaped(c).value) == Some(c)
    ensures Escaped(c).None? ==> c != '"' && c != '\\'
    ensures Escaped(c).Some? && !Misread(c) ==> !IsHex(Escaped(c).value)
    ensures IsHex(c) && c != NUL ==> Escaped(c).None?
    ensures Escaped(c).Some? ==> Escaped(c).value != NUL
  {
  }

  lemma ClosedStep(s: string, rest: string)
    requires s != []
    ensures Closed(s, rest) == EscapeChar(s[0]) + Closed(s[1..], rest)
    ensures Drop(Closed(s, rest), |EscapeChar(s[0])|) == Closed(s[1..], rest)
    ensures forall i: nat {:trigger At(Closed(s[1..], rest), i)} ::
              At(Closed(s, rest), |EscapeChar(s[0])| + i) == At(Closed(s[1..], rest), i)
  {
    var e, u := EscapeChar(s[0]), Closed(s[1..], rest);
    assert Closed(s, rest) == e + u;
    assert (e + u)[|e|..] == u;
  }

  /** The second pass undoes the escapes of every string. */
  lemma {:induction false} CopyPassInverts(s: string, rest: string)
    requires NoNul(s)
    ensures CopyPass(Closed(s, rest)) == Copied(s, rest)
  {
    if s == [] {
      assert Closed(s, rest) == "\"" + rest;
    } else {
      hide CopyPass, EscapeChar, Closed;
      CopyPassInverts(s[1..], rest);
      ClosedStep(s, rest);
      CopyChar(s[0], Closed(s[1..], rest));
      assert [s[0]] + s[1..] == s;
    }
  }

  /** One character, as it is printed, is stored as it was. */
  lemma CopyChar(c: char, u: string)
    requires c != NUL
    ensures CopyPass(EscapeChar(c) + u) == Stored(c, CopyPass(u))
  {
    hide Escaped, Unescaped, FourHex;
    EscapedCases(c);
    var e := EscapeChar(c);
    assert Drop(e + u, |e|) == u;
    if Escaped(c).Some? { assert (e + u)[0] == '\\' && (e + u)[1] == Escaped(c).value; }
  }

  /** Hex digits at the start of printed text are hex digits of the string, printed as they are. */
  lemma {:induction false} HexPrefix(s: string, rest: string, k: nat)
    requires NoNul(s) && forall i | 0 <= i < k :: IsHex(At(Closed(s, rest), i))
    ensures k <= |s| && forall i | 0 <= i < k :: IsHex(s[i]) && Escaped(s[i]).None?
    decreases k
  {
    if k > 0 {
      assert IsHex(At(Closed(s, rest), 0));
      if s != [] {
        EscapedCases(s[0]);
        ClosedStep(s, rest);
        forall i | 0 <= i < k - 1 ensures IsHex(At(Closed(s[1..], rest), i)) {
          assert IsHex(At(Closed(s, rest), i + 1));
        }
        HexPrefix(s[1..], rest, k - 1);
        assert forall i | 0 < i < k :: s[i] == s[1..][i - 1];
      }
    }
  }

  /** A backslash before printed text is read as a hex escape only if hex digits follow. */
  lemma FourHexAfter(s: string, rest: string, e: char)
    requires NoNul(s)
    ensures FourHex(['\\', e] + Closed(s, rest), 1) ==> IsHex(e) && HexNext(s) && forall i | 0 <= i < 3 :: Escaped(s[i]).None?
  {
    var u := Closed(s, rest);
    var t := ['\\', e] + u;
    if FourHex(t, 1) {
      assert At(t, 2) == At(u, 0) && At(t, 3) == At(u, 1) && At(t, 4) == At(u, 2);
      HexPrefix(s, rest, 3);
    }
  }

  /** The first pass counts the characters of a string without hex runs. */
  lemma {:induction false} SizePassCounts(s: string, rest: string)
    requires NoNul(s) && NoHexRun(s)
    ensures SizePass(Closed(s, rest)) == Some(|s|)
  {
    if s != [] {
      EscapedCases(s[0]);
      SizePassCounts(s[1..], rest);
      ClosedStep(s, rest);
      if Escaped(s[0]).Some? {
        FourHexAfter(s[1..], rest, Escaped(s[0]).value);
      }
    }
  }

  lemma TextRoundTrip(s: string, rest: string)
    requires NoNul(s) && NoHexRun(s)
    ensures GetText(Closed(s, rest)) == Text(s, rest)
  {
    CopyPassInverts(s, rest);
    SizePassCounts(s, rest);
  }

  // Exactly which strings read back when the text ends the input.

  predicate AtMost(r: Option<nat>, n: int) { r.None? || r.value <= n }

  /** Skipping k characters that print as themselves and one more byte. */
  lemma {:induction false} DropPlain(s: string, k: nat)
    requires k <= |s| && forall i | 0 <= i < k :: Escaped(s[i]).None?
    ensures Drop(Closed(s, ""), k + 1) == if k < |s| then Closed(s[k..], "")[1..] else ""
    decreases k
  {
    if k > 0 {
      DropPlain(s[1..], k - 1);
      ClosedStep(s, "");
      assert s[1..][k - 1..] == s[k..];
      assert Drop(Closed(s, ""), k + 1) == Drop(Closed(s[1..], ""), k);
    } else if s == [] {
      assert Closed(s, "") == "\"";
    }
  }

  /** The first pass never counts too many, not even when it starts one byte late; after a hex
      run it counts too few. */
  lemma {:induction false} SizePassAtMost(s: string)
    requires NoNul(s)
    ensures AtMost(SizePass(Closed(s, "")), |s|)
    ensures s != [] ==> AtMost(SizePass(Closed(s, "")[1..]), |s|)
    ensures !NoHexRun(s) ==> AtMost(SizePass(Closed(s, "")), |s| - 1)
    decreases |s|, 1
  {
    if s != [] {
      SizePassAtMost(s[1..]);
      ClosedStep(s, "");
      EscapedCases(s[0]);
      if Escaped(s[0]).None? {
        assert Closed(s, "")[1..] == Closed(s[1..], "");
      } else {
        AlignedAtMost(s);
        LateAtMost(s);
      }
    }
  }

  lemma {:induction false} AlignedAtMost(s: string)
    requires NoNul(s) && s != [] && Escaped(s[0]).Some?
    requires AtMost(SizePass(Closed(s[1..], "")), |s| - 1)
    requires !NoHexRun(s[1..]) ==> AtMost(SizePass(Closed(s[1..], "")), |s| - 2)
    ensures AtMost(SizePass(Closed(s, "")), |s|)
    ensures !NoHexRun(s) ==> AtMost(SizePass(Closed(s, "")), |s| - 1)
    decreases |s|, 0
  {
    var u, e := s[1..], Escaped(s[0]).value;
    var t := Closed(s, "");
    ClosedStep(s, "");
    EscapedCases(s[0]);
    FourHexAfter(u, "", e);
    if FourHex(t, 1) {
      DropPlain(u, 3);
      assert Drop(t, 6) == Drop(Closed(u, ""), 4);
      if 3 < |u| { SizePassAtMost(u[3..]); }
    } else if Misread(s[0]) && HexNext(u) {
      HexNextPrinted(u, e);
    }
  }

  /** Three hex digits after an escaped backspace or form feed are read as a hex escape. */
  lemma HexNextPrinted(u: string, e: char)
    requires NoNul(u) && HexNext(u) && IsHex(e)
    ensures FourHex(['\\', e] + Closed(u, ""), 1)
  {
    var t := ['\\', e] + Closed(u, "");
    EscapedCases(u[0]);
    EscapedCases(u[1]);
    EscapedCases(u[2]);
    ClosedStep(u, "");
    ClosedStep(u[1..], "");
    ClosedStep(u[1..][1..], "");
    assert At(t, 2) == u[0] && At(t, 3) == u[1] && At(t, 4) == u[2];
  }

  /** The first pass over a text that does not start with a backslash. */
  lemma {:induction false} SizeFirst(t: string)
    requires At(t, 0) != '\\'
    ensures SizePass(t) == if At(t, 0) == '"' then Some(0) else if At(t, 0) == NUL then None
                           else if SizePass(Drop(t, 1)).None? then None else Some(SizePass(Drop(t, 1)).value + 1)
  {
  }

  lemma {:induction false} LateAtMost(s: string)
    requires NoNul(s) && s != [] && Escaped(s[0]).Some?
    requires AtMost(SizePass(Closed(s[1..], "")), |s| - 1)
    ensures AtMost(SizePass(Closed(s, "")[1..]), |s|)
    decreases |s|, 0, 1
  {
    hide Escaped, IsHex, NoHexRun, Closed, SizePass;
    var u, e := s[1..], Escaped(s[0]).value;
    var t := Closed(s, "")[1..];
    ClosedStep(s, "");
    assert t == [e] + Closed(u, "");
    assert Drop(t, 1) == Closed(u, "") && At(t, 0) == e;
    EscapedCases(s[0]);
    if e == '\\' {
      BackslashAtMost(u);
    } else {
      SizeFirst(t);
    }
  }

  lemma {:induction false} BackslashAtMost(u: string)
    requires NoNul(u)
    ensures AtMost(SizePass(['\\'] + Closed(u, "")), |u| + 1)
    decreases |u| + 1, 0, 0
  {
    var t := ['\\'] + Closed(u, "");
    var k := if FourHex(t, 1) then 4 else 0;
    if FourHex(t, 1) {
      forall i | 0 <= i < 4 ensures IsHex(At(Closed(u, ""), i)) {
        assert At(t, i + 1) == At(Closed(u, ""), i);
      }
      HexPrefix(u, "", 4);
    }
    DropPlain(u, k);
    assert Drop(t, k + 2) == Drop(Closed(u, ""), k + 1);
    if k < |u| { SizePassAtMost(u[k..]); }
  }

  /** A string whose text ends the input reads back if and only if it has no hex run. */
  lemma TextRoundTripIff(s: string)
    requires NoNul(s)
    ensures GetText(Closed(s, "")) == Text(s, "") <==> NoHexRun(s)
  {
    CopyPassInverts(s, "");
    if NoHexRun(s) {
      SizePassCounts(s, "");
    } else {
      SizePassAtMost(s);
    }
  }

  /** A backspace before "abc" does not survive. */
  lemma BackspaceMisread()
    ensures GetText(Closed([BS, 'a', 'b', 'c'], "")) == BadString
  {
    var s := [BS, 'a', 'b', 'c'];
    ClosedStep(s, "");
    assert s[1..] == "abc" && EscapeChar(BS) == ['\\', 'b'];
    var t := Closed(s, "");
    assert t == ['\\', 'b'] + Closed("abc", "");
    HexNextPrinted("abc", 'b');
    FourHexAfter("abc", "", 'b');
    DropPlain("abc", 3);
    assert Drop(t, 6) == Drop(Closed("abc", ""), 4) == "";
    assert SizePass("") == None;
  }

  // The loops of `j_get_text`, and of the escaping printer.

  lemma DropDrop(s: string, p: nat, k: nat)
    ensures Drop(Drop(s, p), k) == Drop(s, p + k)
    ensures forall i: nat :: At(Drop(s, p), i) == At(s, p + i)
  {
  }

  /** The first `p` bytes count for `len` characters. */
  ghost predicate Sizing(s: string, p: nat, len: nat) {
    var r := SizePass(Drop(s, p));
    SizePass(s) == if r.None? then None else Some(r.value + len)
  }

  lemma SizeNone(s: string)
    ensures Sizing(s, 0, 0)
  {
    assert Drop(s, 0) == s;
  }

  lemma {:induction false} SizeTurn(s: string, p: nat, len: nat)
    requires Sizing(s, p, len)
    ensures At(s, p) == '"' ==> SizePass(s) == Some(len)
    ensures At(s, p) == NUL ==> SizePass(s) == None
    ensures At(s, p) !in {'"', NUL, '\\'} ==> Sizing(s, p + 1, len + 1)
    ensures At(s, p) == '\\' ==>
              if FourHex(s, p + 1) then Sizing(s, p + 6, len + 1)
              else if At(s, p + 1) == NUL then SizePass(s) == None
              else Sizing(s, p + 2, len + 1)
  {
    hide IsHex;
    DropDrop(s, p, 1);
    DropDrop(s, p, 2);
    DropDrop(s, p, 6);
    assert At(Drop(s, p), 0) == At(s, p) && At(Drop(s, p), 1) == At(s, p + 1);
    assert At(Drop(s, p), 2) == At(s, p + 2) && At(Drop(s, p), 3) == At(s, p + 3) && At(Drop(s, p), 4) == At(s, p + 4);
    assert FourHex(Drop(s, p), 1) <==> FourHex(s, p + 1);
  }

  lemma PastEnd(s: string, p: nat)
    requires p >= |s|
    ensures At(s, p) == NUL && At(s, p) != '"' && At(s, p) != '\\'
  {
  }

  method SizeLoop(s: string) returns (size: Option<nat>)
    ensures size == SizePass(s)
  {
    hide *;
    var p, len := 0, 0;
    SizeNone(s);
    while At(s, p) != '"'
      invariant Sizing(s, p, len)
      decreases |s| - p
    {
      SizeTurn(s, p, len);
      if p >= |s| { PastEnd(s, p); }
      if At(s, p) == '\\' {
        if FourHex(s, p + 1) {
          p, len := p + 6, len + 1;
          continue;
        } else {
          p := p + 1;
        }
      }
      if At(s, p) == NUL { return None; }
      p, len := p + 1, len + 1;
    }
    SizeTurn(s, p, len);
    return Some(len);
  }

  /** The first `p` bytes have been copied to `str`. */
  ghost predicate Copying(s: string, p: nat, str: string) {
    p <= |s| && CopyPass(s) == Prepend(str, CopyPass(Drop(s, p)))
  }

  lemma CopyNone(s: string)
    ensures Copying(s, 0, "")
  {
    assert Drop(s, 0) == s;
    assert Prepend("", CopyPass(s)) == CopyPass(s);
  }

  lemma {:induction false} CopyPlain(s: string, p: nat, str: string)
    requires Copying(s, p, str) && At(s, p) != '"' && At(s, p) != '\\'
    ensures if At(s, p) == NUL then CopyPass(s) == RunsOff else Copying(s, p + 1, str + [At(s, p)])
  {
    DropDrop(s, p, 1);
    assert At(Drop(s, p), 0) == At(s, p);
    CopyStep(str, Drop(s, p));
  }

  lemma {:induction false} CopyEscaped(s: string, p: nat, str: string)
    requires Copying(s, p, str) && At(s, p) == '\\'
    ensures var e := At(s, p + 1);
            match Unescaped(e)
            case Some(o) => Copying(s, p + 2, str + [o])
            case None => if FourHex(s, p + 1) then CopyPass(s) == Outside
                         else if e == NUL then CopyPass(s) == RunsOff
                         else Copying(s, p + 2, str + [e])
  {
    assert Unescaped(NUL) == None;
    hide Unescaped, IsHex;
    DropDrop(s, p, 2);
    assert At(Drop(s, p), 0) == At(s, p) && At(Drop(s, p), 1) == At(s, p + 1);
    assert FourHex(Drop(s, p), 1) <==> FourHex(s, p + 1);
    CopyStep(str, Drop(s, p));
  }

  lemma {:induction false} CopyEnd(s: string, p: nat, str: string)
    requires Copying(s, p, str) && At(s, p) == '"'
    ensures p < |s| && CopyPass(s) == Copied(str, s[p + 1..])
  {
    assert At(Drop(s, p), 0) == At(s, p);
    assert Drop(s, p)[1..] == s[p + 1..] && str + [] == str;
  }

  method CopyLoop(s: string) returns (r: Copied)
    ensures r == CopyPass(s)
  {
    hide *;
    var p, str := 0, "";
    CopyNone(s);
    while At(s, p) != '"'
      invariant Copying(s, p, str)
      invariant p <= |s|
      decreases |s| - p
    {
      if At(s, p) == '\\' {
        CopyEscaped(s, p, str);
        InText(s, p);
        p := p + 1;
        var o := Translate(At(s, p), true);
        if o.Some? {
          str := str + [o.value];
        } else if FourHex(s, p) {
          return Outside;
        } else if At(s, p) == NUL {
          return RunsOff;
        } else {
          str := str + [At(s, p)];
        }
      } else {
        CopyPlain(s, p, str);
        if At(s, p) == NUL { return RunsOff; }
        str := str + [At(s, p)];
      }
      p := p + 1;
      Within(s, p, str);
    }
    CopyEnd(s, p, str);
    return Copied(str, s[p + 1..]);
  }

  lemma Within(s: string, p: nat, str: string)
    requires Copying(s, p, str)
    ensures p <= |s|
  {
  }

  lemma InText(s: string, p: nat)
    requires At(s, p) == '\\'
    ensures p < |s|
  {
  }

  function Prepend(str: string, r: Copied): Copied {
    if r.Copied? then r.(text := str + r.text) else r
  }

  /** One turn of the copying loop. */
  lemma CopyStep(str: string, s: string)
    ensures var c := At(s, 0);
            var o := if c == '\\' && Unescaped(At(s, 1)).Some? then Unescaped(At(s, 1)).value
                     else if c == '\\' then At(s, 1) else c;
            c != NUL && c != '"' && (c == '\\' ==> Unescaped(At(s, 1)).Some? || (!FourHex(s, 1) && At(s, 1) != NUL)) ==>
              Prepend(str, CopyPass(s)) == Prepend(str + [o], CopyPass(Drop(s, if c == '\\' then 2 else 1)))
  {
    assert forall t: string, o: char :: str + ([o] + t) == (str + [o]) + t;
  }

  /** `j_get_text` */
  method ReadText(s: string) returns (r: TextResult)
    ensures r == GetText(s)
  {
    var size := SizeLoop(s);
    if size.None? { return BadString; }
    var c := CopyLoop(s);
    if c.Outside? { return NotModelled; }
    if c.RunsOff? || |c.text| > size.value { return Overrun; }
    return Text(c.text, c.rest);
  }
}
