/** Reading a line from a peer (src/http.c, `get_line`). */
module Lines {
  predicate Control(c: char) { c as int < 32 || c as int == 127 }

  predicate Plain(c: char) { !Control(c) || c == '\t' }

  predicate PlainLine(s: string) { forall i | 0 <= i < |s| :: Plain(s[i]) }

  /** Length of the longest plain prefix. */
  function PlainEnd(s: string): (n: nat)
    ensures n <= |s| && (n < |s| ==> !Plain(s[n])) && forall i | 0 <= i < n :: Plain(s[i])
  {
    if s == "" || !Plain(s[0]) then 0 else 1 + PlainEnd(s[1..])
  }

  lemma {:induction false} PlainEndIs(s: string, n: nat)
    requires n <= |s| && (n < |s| ==> !Plain(s[n])) && forall i | 0 <= i < n :: Plain(s[i])
    ensures PlainEnd(s) == n
  {
  }

  /** A line as it is written. */
  function Ended(line: string): string { line + "\r\n" }

  datatype Read = Line(line: string) | Eof | BadData | TooLong

  /** What is left once the rest of the line has been skipped. */
  function Drained(s: string): (r: string)
    ensures |r| <= |s|
  {
    if s == "" then "" else if s[0] == '\n' then s[1..] else Drained(s[1..])
  }

  /** The first line of `s`, without its end, and what follows it.  At most `cap` characters are read for
      it.  A line ends in CR LF, in LF, or where the input ends. */
  function GetLine(s: string, cap: nat): (r: (Read, string))
    ensures r.0.Line? ==> |r.1| < |s| && PlainLine(r.0.line) && |r.0.line| < cap
  {
    var n := PlainEnd(s);
    if n >= cap then (TooLong, Drained(s[cap..]))
    else if n == |s| then (if n == 0 then Eof else Line(s), "")
    else if s[n] == '\n' then (Line(s[..n]), s[n + 1..])
    else if s[n] != '\r' then (BadData, Drained(s[n + 1..]))
    else if n + 1 == cap then (TooLong, Drained(s[cap..]))
    else if n + 1 == |s| then (Line(s[..n]), "")
    else if s[n + 1] == '\n' then (Line(s[..n]), s[n + 2..])
    else (BadData, Drained(s[n + 2..]))
  }

  /** `s` starts with `line`, ended by CR LF, by LF or by the end of the input, perhaps after a CR; the buffer
      has room for the characters read, and `rest` follows. */
  predicate LineAt(s: string, line: string, rest: string, cap: nat) {
    && PlainLine(line) && s != ""
    && ( || (s == line + "\n" + rest && |line| + 1 <= cap)
         || (s == line + "\r\n" + rest && |line| + 2 <= cap)
         || (s == line && rest == "" && |line| + 1 <= cap)
         || (s == line + "\r" && rest == "" && |line| + 2 <= cap))
  }

  lemma {:induction false} LineRead(s: string, line: string, rest: string, cap: nat)
    requires LineAt(s, line, rest, cap)
    ensures GetLine(s, cap) == (Line(line), rest)
  {
    assert forall i | 0 <= i < |line| :: s[i] == line[i];
    PlainEndIs(s, |line|);
    hide PlainEnd, Drained;
    assert s[..|line|] == line;
    if |s| > |line| {
      assert s[|line|] == '\n' ==> s[|line| + 1..] == rest;
      assert s[|line|] == '\r' && |s| > |line| + 1 ==> s[|line| + 2..] == rest;
    }
  }

  lemma {:induction false} ReadLineAt(s: string, cap: nat)
    requires GetLine(s, cap).0.Line?
    ensures LineAt(s, GetLine(s, cap).0.line, GetLine(s, cap).1, cap)
  {
    var n := PlainEnd(s);
    hide PlainEnd, Drained;
    if n < |s| {
      assert s == s[..n] + [s[n]] + s[n + 1..];
      if n + 1 < |s| { assert s == s[..n] + [s[n], s[n + 1]] + s[n + 2..]; }
    }
  }

  /** Exactly which line is read, and what is left. */
  lemma LineReadIff(s: string, line: string, rest: string, cap: nat)
    ensures GetLine(s, cap) == (Line(line), rest) <==> LineAt(s, line, rest, cap)
  {
    if LineAt(s, line, rest, cap) { LineRead(s, line, rest, cap); }
    if GetLine(s, cap).0.Line? { ReadLineAt(s, cap); }
  }

  /** The characters that may be read are all of a line that goes on, or its CR is the last of them. */
  predicate NoEnd(s: string, cap: nat) {
    |s| >= cap && (PlainLine(s[..cap]) || (cap > 0 && PlainLine(s[..cap - 1]) && s[cap - 1] == '\r'))
  }

  /** Exactly when there is nothing to read, and when a line is too long; where neither is the case and no line is
      there, the data are bad. */
  lemma {:induction false} NoLineIff(s: string, cap: nat)
    ensures GetLine(s, cap).0.Eof? <==> s == "" && cap > 0
    ensures GetLine(s, cap).0.TooLong? <==> NoEnd(s, cap)
  {
    var n := PlainEnd(s);
    if n < |s| && n < cap <= |s| { assert s[..cap][n] == s[n]; }
    if n < |s| && n + 1 < cap <= |s| { assert s[..cap - 1][n] == s[n]; }
    if n == cap - 1 && cap <= |s| { assert forall i | 0 <= i < cap - 1 :: s[..cap - 1][i] == s[i]; }
    hide PlainEnd, Drained;
  }

  /** A line that just fits is accepted with LF, and not with CR LF. */
  lemma LongestLine(line: string, more: string, cap: nat)
    requires PlainLine(line) && |line| + 1 == cap
    ensures GetLine(line + "\n" + more, cap) == (Line(line), more)
    ensures GetLine(Ended(line) + more, cap).0.TooLong?
  {
    LineRead(line + "\n" + more, line, more, cap);
    WrittenLine(line, more, cap);
  }

  /** With the buffer of the program that is a line of 4094 characters. */
  lemma Line4094(more: string)
    ensures var line := seq(4094, i => 'x');
            GetLine(line + "\n" + more, 4095) == (Line(line), more) && GetLine(Ended(line) + more, 4095).0.TooLong?
  {
    LongestLine(seq(4094, i => 'x'), more, 4095);
  }

  /** A line written with CR LF is read back, whatever follows it, if and only if there is room for it. */
  lemma {:induction false} WrittenLine(line: string, more: string, cap: nat)
    requires PlainLine(line)
    ensures if |line| + 1 < cap then GetLine(Ended(line) + more, cap) == (Line(line), more)
            else GetLine(Ended(line) + more, cap).0.TooLong?
  {
    var s, n := Ended(line) + more, |line|;
    assert s[..n] == line && s[n + 2..] == more && s[n] == '\r' && s[n + 1] == '\n';
    assert forall i | 0 <= i < n :: s[i] == line[i];
    PlainEndIs(s, n);
    hide PlainEnd;
  }
}

/** Lengths in headers (src/http.c, `strtoclen` and `get_content_length`). */
module Lengths {
  import opened Options

  const CLEN_MAX: nat := 0x7fff_ffff_ffff_ffff

  function DigitValue(c: char, base: nat): (d: Option<nat>)
    ensures d.Some? && base in {10, 16} ==> d.value < base
  {
    if '0' <= c <= '9' then Some((c - '0') as nat)
    else if base == 16 && 'a' <= c <= 'f' then Some((c - 'a') as nat + 10)
    else if base == 16 && 'A' <= c <= 'F' then Some((c - 'A') as nat + 10)
    else None
  }

  /** The digits of both number systems, in order, in either case. */
  function Numerals(upper: bool): string { if upper then "0123456789ABCDEF" else "0123456789abcdef" }

  lemma {:induction false} NumeralsInOrder(upper: bool, d: nat)
    requires d < 16
    ensures DigitValue(NumeralAt(upper, d), 16) == Some(d)
    ensures DigitValue(NumeralAt(upper, d), 10) == if d < 10 then Some(d) else None
  {
  }

  /** Nothing else is a digit. */
  lemma OnlyNumerals(c: char)
    ensures DigitValue(c, 16).Some? ==> c in Numerals(false) || c in Numerals(true)
    ensures DigitValue(c, 10).Some? ==> c in Numerals(false)[..10]
  {
    var low, up := Numerals(false), Numerals(true);
    if '0' <= c <= '9' {
      assert low[..10][c as int - '0' as int] == c;
      assert low[c as int - '0' as int] == c;
    } else if 'a' <= c <= 'f' {
      assert low[c as int - 'a' as int + 10] == c;
    } else if 'A' <= c <= 'F' {
      assert up[c as int - 'A' as int + 10] == c;
    }
  }

  /** A number as it is written. */
  function Numeral(n: nat, base: nat, upper: bool): (s: string)
    requires base in {10, 16}
    ensures s != ""
  {
    Division(n, base);
    (if n < base then "" else Numeral(n / base, base, upper)) + [NumeralAt(upper, n % base)]
  }

  function NumeralAt(upper: bool, d: nat): char
    requires d < 16
  {
    Numerals(upper)[d]
  }

  lemma Division(n: nat, base: nat)
    requires base in {10, 16}
    ensures n % base < base && n / base * base + n % base == n && (if n >= base then n / base < n else n / base == 0)
  {
    if base == 10 {
    } else {
    }
  }

  predicate Digits(s: string, base: nat) { forall i | 0 <= i < |s| :: DigitValue(s[i], base).Some? }

  /** The number that a string of digits denotes. */
  function Number(s: string, base: nat): nat
    requires Digits(s, base)
  {
    if s == "" then 0 else Number(s[..|s| - 1], base) * base + DigitValue(s[|s| - 1], base).value
  }

  /** Length of the longest prefix of digits. */
  function DigitsEnd(s: string, base: nat): (n: nat)
    ensures n <= |s| && Digits(s[..n], base) && (n < |s| ==> DigitValue(s[n], base).None?)
  {
    if s == "" || DigitValue(s[0], base).None? then 0
    else
      assert forall i | 0 < i <= DigitsEnd(s[1..], base) :: s[i] == s[1..][..DigitsEnd(s[1..], base)][i - 1];
      1 + DigitsEnd(s[1..], base)
  }

  /** The number at the start of `s` and the text after it; none without digits, or if it is too big. */
  function Leading(s: string, base: nat): Option<(nat, string)> {
    var k := DigitsEnd(s, base);
    if k == 0 || Number(s[..k], base) > CLEN_MAX then None else Some((Number(s[..k], base), s[k..]))
  }

  lemma {:induction false} NumberGrows(s: string, k: nat, base: nat)
    requires base >= 1 && k <= |s| && Digits(s, base)
    ensures Digits(s[..k], base) && Number(s[..k], base) <= Number(s, base)
    decreases |s|
  {
    if k == |s| {
      assert s[..k] == s;
    } else {
      var t := s[..|s| - 1];
      assert t[..k] == s[..k];
      NumberGrows(t, k, base);
      Scaled(Number(t, base), base);
    }
  }

  lemma Scaled(v: nat, base: nat)
    requires base >= 1
    ensures v <= v * base
  {
  }

  lemma DigitsEndIs(s: string, base: nat, k: nat)
    requires k <= |s| && Digits(s[..k], base) && (k < |s| ==> DigitValue(s[k], base).None?)
    ensures DigitsEnd(s, base) == k
  {
    hide DigitValue;
    var n := DigitsEnd(s, base);
    assert forall i | 0 <= i < k :: s[..k][i] == s[i];
    assert forall i | 0 <= i < n :: s[..n][i] == s[i];
  }

  lemma NumberNext(s: string, k: nat, base: nat)
    requires k < |s| && Digits(s[..k], base) && DigitValue(s[k], base).Some?
    ensures Digits(s[..k + 1], base)
    ensures Number(s[..k + 1], base) == Number(s[..k], base) * base + DigitValue(s[k], base).value
  {
    assert s[..k + 1][..k] == s[..k];
    assert forall i | 0 <= i < k :: s[..k][i] == s[i];
  }

  /** A number that has reached its bound stays beyond it. */
  lemma TooBig(s: string, k: nat, base: nat)
    requires base >= 1 && k <= DigitsEnd(s, base) && Digits(s[..k], base) && Number(s[..k], base) > CLEN_MAX
    ensures Leading(s, base) == None
  {
    var n := DigitsEnd(s, base);
    assert s[..n][..k] == s[..k];
    NumberGrows(s[..n], k, base);
  }

  /** The comparison with a tenth (or a sixteenth) of the bound is the test for the bound. */
  lemma CutoffExact(v: nat, d: nat, base: nat)
    requires base in {10, 16} && d < base
    ensures v > CLEN_MAX / base || (v == CLEN_MAX / base && d > CLEN_MAX % base) <==> v * base + d > CLEN_MAX
  {
  }

  /** `strtoclen` */
  method StrToClen(arg: string, base: nat) returns (r: Option<(nat, string)>)
    requires base in {10, 16}
    ensures r == Leading(arg, base)
  {
    var val: nat, s := 0, 0;
    var cutoff, cutlim := CLEN_MAX / base, CLEN_MAX % base;
    while s < |arg|
      invariant 0 <= s <= |arg| && Digits(arg[..s], base) && s <= DigitsEnd(arg, base)
      invariant val == Number(arg[..s], base) && val <= CLEN_MAX
    {
      var d := DigitValue(arg[s], base);
      if d.None? { break; }
      NumberNext(arg, s, base);
      CutoffExact(val, d.value, base);
      if val > cutoff || (val == cutoff && d.value > cutlim) {
        TooBig(arg, s + 1, base);
        return None;
      }
      val := val * base + d.value;
      s := s + 1;
    }
    DigitsEndIs(arg, base, s);
    r := if s == 0 then None else Some((val, arg[s..]));
  }

  function SkipBlanks(s: string): string {
    if s != "" && (s[0] == ' ' || s[0] == '\t') then SkipBlanks(s[1..]) else s
  }

  predicate Trimmed(v: string) { SkipBlanks(v) == v }

  lemma {:induction false} SkipTwice(s: string)
    ensures SkipBlanks(SkipBlanks(s)) == SkipBlanks(s)
  {
    if s != "" && (s[0] == ' ' || s[0] == '\t') { SkipTwice(s[1..]); }
  }

  predicate Blank(s: string) { forall i | 0 <= i < |s| :: s[i] == ' ' || s[i] == '\t' }

  lemma {:induction false} BlanksSkipped(b: string, v: string)
    requires Blank(b) && Trimmed(v)
    ensures SkipBlanks(b + v) == v
  {
    if b == "" {
      assert b + v == v;
    } else {
      assert (b + v)[1..] == b[1..] + v;
      BlanksSkipped(b[1..], v);
    }
  }

  lemma {:induction false} SkippedBlanks(s: string) returns (b: string)
    ensures Blank(b) && s == b + SkipBlanks(s)
  {
    if s != "" && (s[0] == ' ' || s[0] == '\t') {
      var c := SkippedBlanks(s[1..]);
      b := [s[0]] + c;
      assert s == [s[0]] + s[1..];
    } else {
      b := "";
    }
  }

  /** The size in a chunk header: a hexadecimal number, then blanks, then the end or an extension. */
  function ChunkSize(header: string): (n: Option<nat>)
    ensures n.Some? ==> n.value <= CLEN_MAX
  {
    var r := Leading(header, 16);
    if r.None? then None
    else
      var p := SkipBlanks(r.value.1);
      if p == "" || p[0] == ';' then Some(r.value.0) else None
  }

  /** What is written as a number is read as that number, in either case, unless it is too big. */
  lemma {:induction false} NumeralRead(n: nat, base: nat, upper: bool)
    requires base in {10, 16}
    ensures Digits(Numeral(n, base, upper), base) && Number(Numeral(n, base, upper), base) == n
  {
    var q, d := NumeralLast(n, base, upper);
    NumeralsInOrder(upper, d);
    if n >= base { NumeralRead(q, base, upper); }
    ReadOn(if n < base then "" else Numeral(q, base, upper), q, base, d, NumeralAt(upper, d));
    hide *;
  }

  lemma NumeralLast(n: nat, base: nat, upper: bool) returns (q: nat, d: nat)
    requires base in {10, 16}
    ensures d < base && q * base + d == n && (if n < base then q == 0 else q < n)
    ensures Numeral(n, base, upper) == (if n < base then "" else Numeral(q, base, upper)) + [NumeralAt(upper, d)]
  {
    hide NumeralAt;
    Division(n, base);
    q, d := n / base, n % base;
  }

  lemma ReadOn(s: string, n: nat, base: nat, d: nat, c: char)
    requires Digits(s, base) && Number(s, base) == n && DigitValue(c, base) == Some(d)
    ensures Digits(s + [c], base) && Number(s + [c], base) == n * base + d
  {
    hide DigitValue;
    assert (s + [c])[..|s|] == s;
  }

  /** What a header with a size is: digits, blanks, and nothing more or an extension. */
  ghost predicate SizeOf(header: string, n: nat) {
    exists d, b, x :: header == d + (b + x) && d != "" && Digits(d, 16) && Number(d, 16) == n && Blank(b) && (x == "" || x[0] == ';')
  }

  /** Exactly which headers have a size, and which. */
  lemma ChunkSizeIff(header: string, n: nat)
    ensures ChunkSize(header) == Some(n) <==> n <= CLEN_MAX && SizeOf(header, n)
  {
    if ChunkSize(header) == Some(n) { SizeIs(header); }
    if d, b, x :| header == d + (b + x) && d != "" && Digits(d, 16) && Number(d, 16) == n && Blank(b) && (x == "" || x[0] == ';') {
      SizeReads(d, b, x);
    }
  }

  lemma SizeIs(header: string)
    requires ChunkSize(header).Some?
    ensures SizeOf(header, ChunkSize(header).value)
  {
    hide DigitValue, Number, SkipBlanks, Blank;
    var k := DigitsEnd(header, 16);
    var b := SkippedBlanks(header[k..]);
    var d, x := header[..k], SkipBlanks(header[k..]);
    assert header == d + (b + x);
  }

  lemma SizeReads(d: string, b: string, x: string)
    requires d != "" && Digits(d, 16) && Blank(b) && (x == "" || x[0] == ';')
    ensures ChunkSize(d + (b + x)) == if Number(d, 16) <= CLEN_MAX then Some(Number(d, 16)) else None
  {
    var h, k := d + (b + x), |d|;
    assert h[..k] == d && h[k..] == b + x;
    assert k < |h| ==> DigitValue(h[k], 16).None? by {
      if b != "" { assert h[k] == b[0]; } else if x != "" { assert h[k] == x[0]; }
    }
    assert Trimmed(x);
    BlanksSkipped(b, x);
    hide DigitValue, Number, SkipBlanks, DigitsEnd;
    DigitsEndIs(h, 16, k);
  }

  /** What a header with a length is: digits between blanks. */
  ghost predicate LengthOf(value: string, n: nat) {
    exists b, d, c :: value == b + (d + c) && Blank(b) && Blank(c) && d != "" && Digits(d, 10) && Number(d, 10) == n
  }

  lemma HeaderLengthIff(value: string, n: nat)
    ensures HeaderLength(value) == Some(n) <==> n <= CLEN_MAX && LengthOf(value, n)
  {
    if HeaderLength(value) == Some(n) { LengthIs(value); }
    if b, d, c :| value == b + (d + c) && Blank(b) && Blank(c) && d != "" && Digits(d, 10) && Number(d, 10) == n {
      LengthReads(b, d, c);
    }
  }

  lemma LengthIs(value: string)
    requires HeaderLength(value).Some?
    ensures LengthOf(value, HeaderLength(value).value)
  {
    hide DigitValue, Number, SkipBlanks, Blank;
    var b := SkippedBlanks(value);
    var s := SkipBlanks(value);
    var k := DigitsEnd(s, 10);
    var c := SkippedBlanks(s[k..]);
    assert value == b + (s[..k] + c) && s[k..] == c;
  }

  lemma LengthReads(b: string, d: string, c: string)
    requires Blank(b) && Blank(c) && d != "" && Digits(d, 10)
    ensures HeaderLength(b + (d + c)) == if Number(d, 10) <= CLEN_MAX then Some(Number(d, 10)) else None
  {
    var s, k := d + c, |d|;
    assert s[..k] == d && s[k..] == c;
    assert k < |s| ==> DigitValue(s[k], 10).None? by { if c != "" { assert s[k] == c[0]; } }
    assert Trimmed(s) by { assert s[0] == d[0] && DigitValue(d[0], 10).Some?; }
    BlanksSkipped(b, s);
    assert Trimmed("") && c + "" == c;
    BlanksSkipped(c, "");
    hide DigitValue, Number, SkipBlanks, DigitsEnd;
    DigitsEndIs(s, 10, k);
  }

  /** The text of a size or of a length is read back if and only if it is within bounds. */
  lemma NumeralSize(n: nat, upper: bool)
    ensures ChunkSize(Numeral(n, 16, upper)) == if n <= CLEN_MAX then Some(n) else None
    ensures HeaderLength(Numeral(n, 10, upper)) == if n <= CLEN_MAX then Some(n) else None
  {
    hide Numeral, Number, Digits, DigitValue, ChunkSize, HeaderLength;
    var s, t := Numeral(n, 16, upper), Numeral(n, 10, upper);
    NumeralRead(n, 16, upper);
    NumeralRead(n, 10, upper);
    assert "" + (t + "") == t && s + ("" + "") == s;
    SizeReads(s, "", "");
    LengthReads("", t, "");
  }

  lemma OneSize()
    ensures ChunkSize("1") == Some(1)
  {
    DigitsEndIs("1", 16, 1);
    NumberNext("1", 0, 16);
    assert "1"[..1] == "1" && "1"[..0] == "";
  }

  lemma GreatestDigits(s: string)
    requires s == "7fffffffffffffff"
    ensures |s| == 16 && forall i | 0 <= i < 16 :: DigitValue(s[i], 16) == Some(if i == 0 then 7 else 15)
  {
  }

  function Sixteens(k: nat): nat { if k == 0 then 1 else 16 * Sixteens(k - 1) }

  lemma {:induction false} GreatestPrefix(s: string, k: nat)
    requires s == "7fffffffffffffff" && 1 <= k <= 16
    ensures Digits(s[..k], 16) && Number(s[..k], 16) == 8 * Sixteens(k - 1) - 1
  {
    GreatestDigits(s);
    hide DigitValue;
    if k == 1 {
      assert s[..0] == "";
    } else {
      GreatestPrefix(s, k - 1);
      hide Number;
    }
    NumberNext(s, k - 1, 16);
  }

  /** The greatest size that a chunk header can declare. */
  lemma GreatestSize()
    ensures ChunkSize("7fffffffffffffff") == Some(CLEN_MAX)
  {
    var s := "7fffffffffffffff";
    hide DigitValue, Number, DigitsEnd;
    GreatestPrefix(s, 16);
    DigitsEndIs(s, 16, 16);
    assert Sixteens(15) == 0x1000_0000_0000_0000 by {
      assert Sixteens(2) == 256 && Sixteens(4) == 65536 && Sixteens(6) == 0x100_0000 && Sixteens(8) == 0x1_0000_0000;
      assert Sixteens(10) == 0x100_0000_0000 && Sixteens(12) == 0x1_0000_0000_0000;
      assert Sixteens(14) == 0x100_0000_0000_0000;
    }
    assert s[16..] == "" && s[..16] == s;
  }

  /** The value of a Content-Length header: a decimal number between blanks. */
  function HeaderLength(value: string): (n: Option<nat>)
    ensures n.Some? ==> n.value <= CLEN_MAX
  {
    var r := Leading(SkipBlanks(value), 10);
    if r.Some? && SkipBlanks(r.value.1) == "" then Some(r.value.0) else None
  }

  method TrimLeft(s: string) returns (r: string)
    ensures r == SkipBlanks(s)
  {
    r := s;
    while r != "" && (r[0] == ' ' || r[0] == '\t')
      invariant SkipBlanks(r) == SkipBlanks(s)
      decreases |r|
    {
      r := r[1..];
    }
  }

  /** `get_content_length` */
  method GetContentLength(arg: string, chunk: bool) returns (n: Option<nat>)
    ensures n == if chunk then ChunkSize(arg) else HeaderLength(arg)
  {
    var a := arg;
    if !chunk { a := TrimLeft(arg); }
    var r := StrToClen(a, if chunk then 16 else 10);
    if r.None? { return None; }
    var p := TrimLeft(r.value.1);
    if p != "" && !(chunk && p[0] == ';') { return None; }
    n := Some(r.value.0);
  }
}

/** Relaying a chunked body (src/http.c, `copy_bin` and `copy_chunks`). */
module Chunks {
  import opened Options
  import opened Lines
  import opened Lengths

  datatype Status = Ok | BadRequest | TooLarge | Internal

  /** What a relay of some input comes to: the outcome, the text written, the body and the lines (chunk
      headers and trailers) in it, and the input left. */
  datatype Copied = Copied(status: Status, out: string, body: string, lines: seq<string>, rest: string)

  function Stopped(status: Status, rest: string): Copied { Copied(status, "", "", [], rest) }

  /** `c` after `out` has been written with `data` as body and, if given, a line. */
  function Prefixed(out: string, data: string, lines: seq<string>, c: Copied): Copied {
    c.(out := out + c.out, body := data + c.body, lines := lines + c.lines)
  }

  /** Addition in the 64-bit type of the running total. */
  function Wrapped(n: int): int { if n <= CLEN_MAX then n else n - 0x1_0000_0000_0000_0000 }

  /** The test of the size limit that a chunk header has to pass; a limit of 0 is none. */
  predicate Passes(tot: int, max: nat) { max == 0 || tot <= max }

  function CopyTrailers(s: string, cap: nat): Copied
    decreases |s|
  {
    var (l, rest) := GetLine(s, cap);
    if !l.Line? then Stopped(BadRequest, rest)
    else Prefixed(Ended(l.line), "", [l.line], if l.line == "" then Stopped(Ok, rest) else CopyTrailers(rest, cap))
  }

  /** The relay of `s`, with a total of `tot` before it; lines have at most `cap` characters. */
  function Copy(s: string, tot: int, max: nat, cap: nat): Copied
    decreases |s|
  {
    var (l, rest) := GetLine(s, cap);
    if !l.Line? then Stopped(BadRequest, rest)
    else
      match ChunkSize(l.line)
      case None => Stopped(BadRequest, rest)
      case Some(n) => Prefixed(Ended(l.line), "", [l.line], CopyData(s, rest, n, Wrapped(tot + n), max, cap))
  }

  /** The part of a chunk that follows its header. */
  function CopyData(ghost before: string, s: string, n: nat, tot: int, max: nat, cap: nat): Copied
    requires |s| < |before|
    decreases |before|, 0
  {
    if !Passes(tot, max) then Stopped(TooLarge, s)
    else if n == 0 then CopyTrailers(s, cap)
    else if |s| < n then Prefixed(s, s, [], Stopped(BadRequest, ""))
    else
      var (l, rest) := GetLine(s[n..], cap);
      Prefixed(s[..n], s[..n], [],
               if l != Line("") then Stopped(BadRequest, rest) else Prefixed(Ended(""), "", [], Copy(rest, tot, max, cap)))
  }

  // The coding itself, as section 7.1 of RFC 9112 has it.

  datatype Message =
    | Last(header: string, trailers: seq<string>)
    | Chunk(header: string, data: string, next: Message)

  function EncodeTrailers(ts: seq<string>): string {
    if ts == [] then Ended("") else Ended(ts[0]) + EncodeTrailers(ts[1..])
  }

  function Encode(m: Message): string {
    match m
    case Last(h, ts) => Ended(h) + EncodeTrailers(ts)
    case Chunk(h, d, next) => Ended(h) + (d + (Ended("") + Encode(next)))
  }

  function Data(m: Message): string {
    match m
    case Last(_, _) => ""
    case Chunk(_, d, next) => d + Data(next)
  }

  function LinesOf(m: Message): seq<string> {
    match m
    case Last(h, ts) => [h] + (ts + [""])
    case Chunk(h, _, next) => [h] + LinesOf(next)
  }

  predicate ValidTrailers(ts: seq<string>) { forall i | 0 <= i < |ts| :: ts[i] != "" && PlainLine(ts[i]) }

  predicate Valid(m: Message) {
    match m
    case Last(h, ts) => PlainLine(h) && ChunkSize(h) == Some(0) && ValidTrailers(ts)
    case Chunk(h, d, next) => PlainLine(h) && d != "" && ChunkSize(h) == Some(|d|) && Valid(next)
  }

  /** Lines with room for CR LF in the buffer. */
  predicate Short(lines: seq<string>, cap: nat) { forall i | 0 <= i < |lines| :: |lines[i]| + 1 < cap }

  lemma PrefixedSame(out: string, data: string, lines: seq<string>, c: Copied, d: Copied)
    ensures Prefixed(out, data, lines, c) == Prefixed(out, data, lines, d) <==> c == d
  {
    var p, q := Prefixed(out, data, lines, c), Prefixed(out, data, lines, d);
    assert p.out[|out|..] == c.out && p.body[|data|..] == c.body && p.lines[|lines|..] == c.lines;
    assert q.out[|out|..] == d.out && q.body[|data|..] == d.body && q.lines[|lines|..] == d.lines;
  }

  // A relayed message is a message.

  ghost predicate ReadsTrailers(s: string, ts: seq<string>, rest: string, cap: nat)
    decreases |ts|
  {
    if ts == [] then LineAt(s, "", rest, cap)
    else exists r :: LineAt(s, ts[0], r, cap) && ReadsTrailers(r, ts[1..], rest, cap)
  }

  /** `s` is the message `m`, each line ended in one of the ways that are accepted, and then `rest`. */
  ghost predicate Reads(s: string, m: Message, rest: string, cap: nat)
    decreases m
  {
    match m
    case Last(h, ts) => exists r :: LineAt(s, h, r, cap) && ReadsTrailers(r, ts, rest, cap)
    case Chunk(h, d, next) => exists r, u :: LineAt(s, h, d + r, cap) && LineAt(r, "", u, cap) && Reads(u, next, rest, cap)
  }

  lemma {:induction false} TrailersEncode(s: string, cap: nat) returns (ts: seq<string>)
    requires CopyTrailers(s, cap).status.Ok?
    ensures ValidTrailers(ts) && ReadsTrailers(s, ts, CopyTrailers(s, cap).rest, cap)
    ensures CopyTrailers(s, cap) == Copied(Ok, EncodeTrailers(ts), "", ts + [""], CopyTrailers(s, cap).rest)
    decreases |s|
  {
    hide GetLine, LineAt, PlainLine, Ended;
    var (l, rest) := GetLine(s, cap);
    ReadLineAt(s, cap);
    if l.line == "" {
      ts := [];
    } else {
      var us := TrailersEncode(rest, cap);
      ts := [l.line] + us;
      assert ts[1..] == us;
    }
  }

  /** A relay that ends well has read a message of the chunked coding, no more and no less, and has written it;
      its data is the body. */
  lemma {:induction false} CopyEncodes(s: string, tot: int, max: nat, cap: nat) returns (m: Message)
    requires Copy(s, tot, max, cap).status.Ok?
    ensures Valid(m) && Reads(s, m, Copy(s, tot, max, cap).rest, cap)
    ensures Copy(s, tot, max, cap) == Copied(Ok, Encode(m), Data(m), LinesOf(m), Copy(s, tot, max, cap).rest)
    decreases |s|
  {
    hide GetLine, ChunkSize, CopyTrailers, LineAt, PlainLine, Ended, ReadsTrailers;
    var (l, rest) := GetLine(s, cap);
    ReadLineAt(s, cap);
    var n := ChunkSize(l.line).value;
    if n == 0 {
      var ts := TrailersEncode(rest, cap);
      m := Last(l.line, ts);
    } else {
      var d, r := rest[..n], GetLine(rest[n..], cap).1;
      ReadLineAt(rest[n..], cap);
      assert rest == d + rest[n..];
      var k := CopyEncodes(r, Wrapped(tot + n), max, cap);
      m := Chunk(l.line, d, k);
    }
  }

  // A message is read back.

  /** Without a limit the total does not matter. */
  lemma {:induction false} Unlimited(s: string, t: int, u: int, max: nat, cap: nat)
    requires t == u || max == 0
    ensures Copy(s, t, max, cap) == Copy(s, u, max, cap)
    decreases |s|
  {
    hide GetLine, ChunkSize, CopyTrailers;
    var (l, rest) := GetLine(s, cap);
    if t != u && l.Line? && ChunkSize(l.line).Some? {
      var n := ChunkSize(l.line).value;
      if 0 < n <= |rest| {
        var (k, r) := GetLine(rest[n..], cap);
        if k.Line? { Unlimited(r, Wrapped(t + n), Wrapped(u + n), max, cap); }
      }
    }
  }

  lemma CopyIs(s: string, tot: int, max: nat, cap: nat, h: string, rest: string, n: nat)
    requires GetLine(s, cap) == (Line(h), rest) && ChunkSize(h) == Some(n)
    ensures Copy(s, tot, max, cap) == Prefixed(Ended(h), "", [h], CopyData(s, rest, n, Wrapped(tot + n), max, cap))
  {
    hide GetLine, ChunkSize;
  }

  lemma DataIs(before: string, s: string, n: nat, tot: int, max: nat, cap: nat, rest: string)
    requires |s| < |before| && Passes(tot, max) && 0 < n <= |s| && GetLine(s[n..], cap) == (Line(""), rest)
    ensures CopyData(before, s, n, tot, max, cap) ==
              Prefixed(s[..n], s[..n], [], Prefixed(Ended(""), "", [], Copy(rest, tot, max, cap)))
  {
    hide GetLine, Copy, CopyTrailers;
  }

  lemma CopyFails(s: string, tot: int, max: nat, cap: nat)
    requires !GetLine(s, cap).0.Line?
    ensures Copy(s, tot, max, cap).status.BadRequest?
  {
    hide GetLine;
  }

  lemma TrailersAre(s: string, cap: nat, h: string, rest: string)
    requires GetLine(s, cap) == (Line(h), rest)
    ensures CopyTrailers(s, cap) == Prefixed(Ended(h), "", [h], if h == "" then Stopped(Ok, rest) else CopyTrailers(rest, cap))
  {
    hide GetLine;
  }

  lemma TrailersFail(s: string, cap: nat)
    requires !GetLine(s, cap).0.Line?
    ensures CopyTrailers(s, cap).status.BadRequest?
  {
    hide GetLine;
  }

  lemma {:induction false} TrailersReadIff(ts: seq<string>, more: string, cap: nat)
    requires ValidTrailers(ts) && cap >= 2
    ensures CopyTrailers(EncodeTrailers(ts) + more, cap) == Copied(Ok, EncodeTrailers(ts), "", ts + [""], more) <==>
              Short(ts, cap)
  {
    hide GetLine, CopyTrailers;
    if ts == [] {
      WrittenLine("", more, cap);
      TrailersAre(Ended("") + more, cap, "", more);
    } else {
      var h, us, rest := ts[0], ts[1..], EncodeTrailers(ts[1..]);
      assert EncodeTrailers(ts) + more == Ended(h) + (rest + more);
      WrittenLine(h, rest + more, cap);
      assert Short(ts, cap) <==> |h| + 1 < cap && Short(us, cap) by { assert ts == [h] + us; }
      if |h| + 1 < cap {
        TrailersAre(Ended(h) + (rest + more), cap, h, rest + more);
        TrailersReadIff(us, more, cap);
        PrefixedSame(Ended(h), "", [h], CopyTrailers(rest + more, cap), Copied(Ok, rest, "", us + [""], more));
        assert [h] + (us + [""]) == ts + [""];
      } else {
        TrailersFail(Ended(h) + (rest + more), cap);
      }
    }
  }

  predicate Within(m: Message, tot: nat, max: nat) { max == 0 || tot + |Data(m)| <= max <= CLEN_MAX }

  lemma {:induction false} LastReadIff(h: string, ts: seq<string>, more: string, tot: nat, max: nat, cap: nat)
    requires var m := Last(h, ts); Valid(m) && cap >= 2 && Within(m, tot, max)
    ensures var m := Last(h, ts);
            Copy(Encode(m) + more, tot, max, cap) == Copied(Ok, Encode(m), Data(m), LinesOf(m), more) <==> Short(LinesOf(m), cap)
  {
    hide GetLine, EncodeTrailers, CopyTrailers, ChunkSize, Copy;
    var rest := EncodeTrailers(ts);
    var s := Ended(h) + (rest + more);
    assert Encode(Last(h, ts)) + more == s;
    WrittenLine(h, rest + more, cap);
    assert Short([h] + (ts + [""]), cap) <==> |h| + 1 < cap && Short(ts, cap) by {
      var ls := [h] + (ts + [""]);
      assert ls[0] == h && ls[|ls| - 1] == "" && forall i | 0 <= i < |ts| :: ls[i + 1] == ts[i];
    }
    if |h| + 1 < cap {
      CopyIs(s, tot, max, cap, h, rest + more, 0);
      TrailersReadIff(ts, more, cap);
      PrefixedSame(Ended(h), "", [h], CopyTrailers(rest + more, cap), Copied(Ok, rest, "", ts + [""], more));
    } else {
      CopyFails(s, tot, max, cap);
    }
  }

  /** The text of a chunk before `tail`. */
  function ChunkText(h: string, d: string, tail: string): string { Ended(h) + (d + (Ended("") + tail)) }

  /** What is copied of a chunk, before `c`. */
  function ChunkCopy(h: string, d: string, c: Copied): Copied {
    Prefixed(Ended(h), "", [h], Prefixed(d, d, [], Prefixed(Ended(""), "", [], c)))
  }

  lemma {:induction false} ChunkReads(h: string, d: string, tail: string, tot: nat, max: nat, cap: nat)
    requires PlainLine(h) && d != "" && ChunkSize(h) == Some(|d|) && cap >= 2 && |h| + 1 < cap
    requires max == 0 || tot + |d| <= max <= CLEN_MAX
    ensures Copy(ChunkText(h, d, tail), tot, max, cap) == ChunkCopy(h, d, Copy(tail, Wrapped(tot + |d|), max, cap))
  {
    hide GetLine, ChunkSize, Copy, CopyTrailers, Ended, CopyData;
    var t, e := d + (Ended("") + tail), Ended("") + tail;
    WrittenLine(h, t, cap);
    WrittenLine("", tail, cap);
    assert t[|d|..] == e && t[..|d|] == d;
    CopyIs(Ended(h) + t, tot, max, cap, h, t, |d|);
    DataIs(Ended(h) + t, t, |d|, Wrapped(tot + |d|), max, cap, tail);
  }

  lemma ChunkSame(h: string, d: string, got: Copied, want: Copied)
    ensures ChunkCopy(h, d, got) == want.(out := ChunkText(h, d, want.out), body := d + want.body, lines := [h] + want.lines) <==>
              got == want
  {
    assert ChunkCopy(h, d, want) == want.(out := ChunkText(h, d, want.out), body := d + want.body, lines := [h] + want.lines);
    var e := Ended("");
    PrefixedSame(e, "", [], got, want);
    PrefixedSame(d, d, [], Prefixed(e, "", [], got), Prefixed(e, "", [], want));
    PrefixedSame(Ended(h), "", [h], Prefixed(d, d, [], Prefixed(e, "", [], got)), Prefixed(d, d, [], Prefixed(e, "", [], want)));
  }

  lemma {:induction false} TrailersCopied(s: string, ts: seq<string>, rest: string, cap: nat)
    requires ValidTrailers(ts) && ReadsTrailers(s, ts, rest, cap)
    ensures CopyTrailers(s, cap) == Copied(Ok, EncodeTrailers(ts), "", ts + [""], rest)
    decreases |ts|
  {
    hide GetLine, LineAt, PlainLine, Ended, CopyTrailers;
    if ts == [] {
      LineRead(s, "", rest, cap);
      TrailersAre(s, cap, "", rest);
      assert Ended("") + "" == Ended("");
    } else {
      var r :| LineAt(s, ts[0], r, cap) && ReadsTrailers(r, ts[1..], rest, cap);
      LineRead(s, ts[0], r, cap);
      TrailersAre(s, cap, ts[0], r);
      TrailersCopied(r, ts[1..], rest, cap);
      assert [ts[0]] + (ts[1..] + [""]) == ts + [""];
    }
  }

  /** Every message within the limit is relayed whole, however its lines are ended. */
  lemma {:induction false} ReadsCopied(s: string, m: Message, rest: string, tot: nat, max: nat, cap: nat)
    requires Valid(m) && Reads(s, m, rest, cap) && Within(m, tot, max)
    ensures Copy(s, tot, max, cap) == Copied(Ok, Encode(m), Data(m), LinesOf(m), rest)
    decreases m
  {
    hide GetLine, LineAt, PlainLine, Ended, CopyTrailers, Copy, ChunkSize, ReadsTrailers, CopyData;
    match m
    case Last(h, ts) =>
      var r :| LineAt(s, h, r, cap) && ReadsTrailers(r, ts, rest, cap);
      LineRead(s, h, r, cap);
      CopyIs(s, tot, max, cap, h, r, 0);
      LastIs(s, r, tot, max, cap);
      TrailersCopied(r, ts, rest, cap);
    case Chunk(h, d, next) =>
      var r, u :| LineAt(s, h, d + r, cap) && LineAt(r, "", u, cap) && Reads(u, next, rest, cap);
      LineRead(s, h, d + r, cap);
      LineRead(r, "", u, cap);
      CopyIs(s, tot, max, cap, h, d + r, |d|);
      assert (d + r)[|d|..] == r && (d + r)[..|d|] == d;
      DataIs(s, d + r, |d|, Wrapped(tot + |d|), max, cap, u);
      Unlimited(u, Wrapped(tot + |d|), tot + |d|, max, cap);
      ReadsCopied(u, next, rest, tot + |d|, max, cap);
      ChunkSame(h, d, Copy(u, Wrapped(tot + |d|), max, cap), Copied(Ok, Encode(next), Data(next), LinesOf(next), rest));
  }

  lemma LastIs(before: string, s: string, tot: nat, max: nat, cap: nat)
    requires |s| < |before| && Passes(Wrapped(tot + 0), max)
    ensures CopyData(before, s, 0, Wrapped(tot + 0), max, cap) == CopyTrailers(s, cap)
  {
  }

  /** What has been encoded is read back whole, and nothing after it is touched, if and only if each line
      leaves room for its CR LF. */
  lemma {:induction false} ReadEncodedIff(m: Message, more: string, tot: nat, max: nat, cap: nat)
    requires Valid(m) && cap >= 2 && Within(m, tot, max)
    ensures Copy(Encode(m) + more, tot, max, cap) == Copied(Ok, Encode(m), Data(m), LinesOf(m), more) <==> Short(LinesOf(m), cap)
    decreases m, 0
  {
    if m.Last? {
      LastReadIff(m.header, m.trailers, more, tot, max, cap);
    } else {
      ChunkReadIff(m.header, m.data, m.next, more, tot, max, cap);
    }
  }

  lemma {:induction false} ChunkParts(h: string, d: string, next: Message, more: string, cap: nat)
    ensures var m := Chunk(h, d, next);
            && Encode(m) + more == ChunkText(h, d, Encode(next) + more) && Encode(m) == ChunkText(h, d, Encode(next))
            && LinesOf(m) == [h] + LinesOf(next)
            && (Short(LinesOf(m), cap) <==> |h| + 1 < cap && Short(LinesOf(next), cap))
  {
    var ls := [h] + LinesOf(next);
    assert ls[0] == h && forall i | 0 <= i < |LinesOf(next)| :: ls[i + 1] == LinesOf(next)[i];
  }

  lemma {:induction false} ChunkReadIff(h: string, d: string, next: Message, more: string, tot: nat, max: nat, cap: nat)
    requires var m := Chunk(h, d, next); Valid(m) && cap >= 2 && Within(m, tot, max)
    ensures var m := Chunk(h, d, next);
            Copy(Encode(m) + more, tot, max, cap) == Copied(Ok, Encode(m), Data(m), LinesOf(m), more) <==> Short(LinesOf(m), cap)
    decreases next, 1
  {
    hide Copy, GetLine, ChunkSize, Encode, LinesOf, ChunkCopy, Short;
    var e, s := Encode(next), ChunkText(h, d, Encode(next) + more);
    WrittenLine(h, d + (Ended("") + (e + more)), cap);
    ChunkParts(h, d, next, more, cap);
    if |h| + 1 < cap {
      ChunkReads(h, d, e + more, tot, max, cap);
      var got, want := Copy(e + more, Wrapped(tot + |d|), max, cap), Copied(Ok, e, Data(next), LinesOf(next), more);
      Unlimited(e + more, Wrapped(tot + |d|), tot + |d|, max, cap);
      ReadEncodedIff(next, more, tot + |d|, max, cap);
      ChunkSame(h, d, got, want);
    } else {
      CopyFails(s, tot, max, cap);
    }
  }

  // When a message is refused for its size.

  function Flat(ds: seq<string>): string { if ds == [] then "" else ds[0] + Flat(ds[1..]) }

  /** `s` has chunks with the data `ds`, none of which takes the total beyond the limit, and then the header of one
      that does. */
  ghost predicate Exceeds(s: string, ds: seq<string>, tot: int, max: nat, cap: nat)
    decreases |ds|
  {
    if ds == [] then exists h, r :: LineAt(s, h, r, cap) && ChunkSize(h).Some? && 0 < max < Wrapped(tot + ChunkSize(h).value)
    else exists h, r, u :: ChunkAt(s, h, ds[0], r, u, tot, max, cap) && Exceeds(u, ds[1..], Wrapped(tot + |ds[0]|), max, cap)
  }

  predicate ChunkAt(s: string, h: string, d: string, r: string, u: string, tot: int, max: nat, cap: nat) {
    && LineAt(s, h, d + r, cap) && d != "" && ChunkSize(h) == Some(|d|) && (max == 0 || Wrapped(tot + |d|) <= max)
    && LineAt(r, "", u, cap)
  }

  lemma {:induction false} TrailersStatus(s: string, cap: nat)
    ensures CopyTrailers(s, cap).status in {Ok, BadRequest}
    decreases |s|
  {
    hide GetLine;
    var (l, rest) := GetLine(s, cap);
    if l.Line? { TrailersStatus(rest, cap); }
  }

  lemma ExceedsNow(s: string, h: string, r: string, tot: int, max: nat, cap: nat)
    requires LineAt(s, h, r, cap) && ChunkSize(h).Some? && !Passes(Wrapped(tot + ChunkSize(h).value), max)
    ensures Exceeds(s, [], tot, max, cap)
  {
    hide LineAt, ChunkSize;
  }

  lemma ExceedsNext(s: string, h: string, d: string, r: string, u: string, ds: seq<string>, tot: int, max: nat, cap: nat)
    requires ChunkAt(s, h, d, r, u, tot, max, cap) && Exceeds(u, ds, Wrapped(tot + |d|), max, cap)
    ensures Exceeds(s, [d] + ds, tot, max, cap) && Flat([d] + ds) == d + Flat(ds)
  {
    hide ChunkAt;
    assert ([d] + ds)[0] == d && ([d] + ds)[1..] == ds;
  }

  /** A relay refused for size after a first chunk has relayed that, and then been refused. */
  lemma RefusedLater(s: string, tot: int, max: nat, cap: nat, h: string, rest: string, n: nat)
    requires Copy(s, tot, max, cap).status.TooLarge? && GetLine(s, cap) == (Line(h), rest) && ChunkSize(h) == Some(n)
    requires Passes(Wrapped(tot + n), max)
    ensures 0 < n <= |rest| && GetLine(rest[n..], cap).0 == Line("")
    ensures var c := Copy(GetLine(rest[n..], cap).1, Wrapped(tot + n), max, cap);
            c.status.TooLarge? && Copy(s, tot, max, cap).body == rest[..n] + c.body
  {
    hide GetLine, ChunkSize, CopyTrailers, Ended;
    TrailersStatus(rest, cap);
  }

  lemma {:induction false} TooLargeExceeds(s: string, tot: int, max: nat, cap: nat) returns (ds: seq<string>)
    requires Copy(s, tot, max, cap).status.TooLarge?
    ensures Exceeds(s, ds, tot, max, cap) && Copy(s, tot, max, cap).body == Flat(ds)
    decreases |s|
  {
    hide GetLine, ChunkSize, CopyTrailers, LineAt, PlainLine, Ended, Exceeds;
    var (l, rest) := GetLine(s, cap);
    ReadLineAt(s, cap);
    var n := ChunkSize(l.line).value;
    if !Passes(Wrapped(tot + n), max) {
      ds := [];
      ExceedsNow(s, l.line, rest, tot, max, cap);
    } else {
      RefusedLater(s, tot, max, cap, l.line, rest, n);
      hide Copy;
      var d, u := rest[..n], GetLine(rest[n..], cap).1;
      ReadLineAt(rest[n..], cap);
      assert rest == d + rest[n..];
      var more := TooLargeExceeds(u, Wrapped(tot + n), max, cap);
      ds := [d] + more;
      ExceedsNext(s, l.line, d, rest[n..], u, more, tot, max, cap);
    }
  }

  lemma {:induction false} ExceedsTooLarge(s: string, ds: seq<string>, tot: int, max: nat, cap: nat)
    requires Exceeds(s, ds, tot, max, cap)
    ensures Copy(s, tot, max, cap).status.TooLarge? && Copy(s, tot, max, cap).body == Flat(ds)
    decreases |ds|
  {
    hide GetLine, LineAt, PlainLine, Ended, CopyTrailers, Copy, ChunkSize;
    if ds == [] {
      var h, r :| LineAt(s, h, r, cap) && ChunkSize(h).Some? && 0 < max < Wrapped(tot + ChunkSize(h).value);
      LineRead(s, h, r, cap);
      CopyIs(s, tot, max, cap, h, r, ChunkSize(h).value);
    } else {
      var d := ds[0];
      var h, r, u :| ChunkAt(s, h, d, r, u, tot, max, cap) && Exceeds(u, ds[1..], Wrapped(tot + |d|), max, cap);
      LineRead(s, h, d + r, cap);
      LineRead(r, "", u, cap);
      CopyIs(s, tot, max, cap, h, d + r, |d|);
      assert (d + r)[|d|..] == r && (d + r)[..|d|] == d;
      DataIs(s, d + r, |d|, Wrapped(tot + |d|), max, cap, u);
      ExceedsTooLarge(u, ds[1..], Wrapped(tot + |d|), max, cap);
    }
  }

  /** A body is refused for its size if and only if a chunk header takes the total, as it is computed, beyond the limit;
      the chunks before it have been relayed, and nothing of it. */
  lemma TooLargeIff(s: string, tot: int, max: nat, cap: nat, body: string)
    ensures Copy(s, tot, max, cap).status.TooLarge? && Copy(s, tot, max, cap).body == body <==>
              exists ds :: Exceeds(s, ds, tot, max, cap) && Flat(ds) == body
  {
    hide Copy, Exceeds, Flat;
    if Copy(s, tot, max, cap).status.TooLarge? { var ds := TooLargeExceeds(s, tot, max, cap); }
    if ds :| Exceeds(s, ds, tot, max, cap) && Flat(ds) == body { ExceedsTooLarge(s, ds, tot, max, cap); }
  }

  // The input used, and the size limit.

  predicate Suffix(r: string, s: string) { |r| <= |s| && r == s[|s| - |r|..] }

  lemma {:induction false} DrainedSuffix(s: string)
    ensures Suffix(Drained(s), s)
  {
    if s != "" && s[0] != '\n' {
      DrainedSuffix(s[1..]);
      SuffixOf(Drained(s[1..]), s, 1);
    }
  }

  lemma SuffixOf(r: string, s: string, k: nat)
    requires k <= |s| && Suffix(r, s[k..])
    ensures Suffix(r, s)
  {
  }

  lemma {:induction false} DropSuffix(s: string, k: nat)
    requires k <= |s|
    ensures Suffix(s[k..], s) && Suffix(Drained(s[k..]), s) && Suffix("", s)
  {
    DrainedSuffix(s[k..]);
    SuffixOf(Drained(s[k..]), s, k);
  }

  lemma {:induction false} LineSuffix(s: string, cap: nat)
    ensures Suffix(GetLine(s, cap).1, s)
  {
    hide PlainEnd, Drained, Suffix;
    var n := PlainEnd(s);
    DropSuffix(s, n);
    if cap <= |s| { DropSuffix(s, cap); }
    if n + 1 <= |s| { DropSuffix(s, n + 1); }
    if n + 2 <= |s| { DropSuffix(s, n + 2); }
  }

  lemma SuffixTrans(a: string, b: string, c: string)
    requires Suffix(a, b) && Suffix(b, c)
    ensures Suffix(a, c)
  {
  }

  lemma {:induction false} TrailersSuffix(s: string, cap: nat)
    ensures Suffix(CopyTrailers(s, cap).rest, s)
    decreases |s|
  {
    hide GetLine, Suffix;
    var (l, rest) := GetLine(s, cap);
    LineSuffix(s, cap);
    if l.Line? && l.line != "" {
      TrailersSuffix(rest, cap);
      SuffixTrans(CopyTrailers(rest, cap).rest, rest, s);
    }
  }

  /** The input is used from its start, and what is left of it is left as it was. */
  lemma {:induction false} CopySuffix(s: string, tot: int, max: nat, cap: nat)
    ensures Suffix(Copy(s, tot, max, cap).rest, s)
    decreases |s|
  {
    hide GetLine, ChunkSize, Suffix, CopyTrailers;
    var (l, rest) := GetLine(s, cap);
    LineSuffix(s, cap);
    if l.Line? && ChunkSize(l.line).Some? {
      var n := ChunkSize(l.line).value;
      TrailersSuffix(rest, cap);
      SuffixTrans(CopyTrailers(rest, cap).rest, rest, s);
      DataSuffix(s, rest, n, Wrapped(tot + n), max, cap);
      SuffixTrans(CopyData(s, rest, n, Wrapped(tot + n), max, cap).rest, rest, s);
    }
  }

  lemma {:induction false} DataSuffix(before: string, s: string, n: nat, tot: int, max: nat, cap: nat)
    requires |s| < |before|
    ensures Suffix(CopyData(before, s, n, tot, max, cap).rest, s)
    decreases |before|, 0
  {
    TrailersSuffix(s, cap);
    assert Suffix("", s) && Suffix(s, s);
    if 0 < n <= |s| {
      var (l, rest) := GetLine(s[n..], cap);
      hide GetLine, CopyTrailers;
      LineSuffix(s[n..], cap);
      SuffixOf(rest, s, n);
      if l == Line("") {
        CopySuffix(rest, tot, max, cap);
        SuffixTrans(Copy(rest, tot, max, cap).rest, rest, s);
      }
      hide Suffix;
    }
  }

  /** A body that is relayed to its end keeps to the limit, on any input of a length that the type has. */
  lemma {:induction false} LimitKept(s: string, tot: nat, max: nat, cap: nat)
    requires 0 < max && tot <= max <= CLEN_MAX && tot + |s| <= CLEN_MAX && Copy(s, tot, max, cap).status.Ok?
    ensures tot + |Copy(s, tot, max, cap).body| <= max
    decreases |s|
  {
    hide GetLine, ChunkSize, CopyTrailers;
    var (l, rest) := GetLine(s, cap);
    var n := ChunkSize(l.line).value;
    if n == 0 {
      TrailersBodiless(rest, cap);
    } else {
      LimitKept(GetLine(rest[n..], cap).1, tot + n, max, cap);
    }
  }

  lemma {:induction false} TrailersBodiless(s: string, cap: nat)
    ensures CopyTrailers(s, cap).body == ""
    decreases |s|
  {
    hide GetLine;
    var (l, rest) := GetLine(s, cap);
    if l.Line? && l.line != "" { TrailersBodiless(rest, cap); }
  }

  /** One chunk: what is relayed of it keeps to the limit, however much of it the sender sends, if and only
      if the size declared can be added to the total without overflow. */
  lemma ChunkLimitIff(h: string, n: nat, tot: nat, max: nat, cap: nat)
    requires PlainLine(h) && ChunkSize(h) == Some(n) && n > 0 && |h| + 1 < cap && 0 < max && tot <= max < CLEN_MAX
    ensures (forall d: string | |d| <= n :: tot + |Copy(Ended(h) + d, tot, max, cap).body| <= max) <==> tot + n <= CLEN_MAX
  {
    hide Copy, ChunkSize;
    forall d: string | |d| <= n
      ensures |Copy(Ended(h) + d, tot, max, cap).body| == if Passes(Wrapped(tot + n), max) then |d| else 0
    {
      ChunkBody(h, d, n, tot, max, cap);
    }
    if tot + n > CLEN_MAX {
      var d := seq(max - tot + 1, i => 'x');
      assert |d| <= n;
      assert tot + |Copy(Ended(h) + d, tot, max, cap).body| > max;
    }
  }

  lemma {:induction false} ChunkBody(h: string, d: string, n: nat, tot: nat, max: nat, cap: nat)
    requires PlainLine(h) && ChunkSize(h) == Some(n) && n > 0 && |h| + 1 < cap && |d| <= n
    ensures |Copy(Ended(h) + d, tot, max, cap).body| == if Passes(Wrapped(tot + n), max) then |d| else 0
  {
    hide GetLine, ChunkSize, Copy;
    WrittenLine(h, d, cap);
    CopyIs(Ended(h) + d, tot, max, cap, h, d, n);
    if |d| == n { EndOfInput(cap); }
  }

  /** A chunk of one character, and one that declares the greatest size: both are relayed, with a limit of 1. */
  lemma LimitExceeded(cap: nat)
    requires cap >= 18
    ensures |Copy(ChunkText("1", "a", Ended("7fffffffffffffff") + "bb"), 0, 1, cap).body| == 3
  {
    hide Copy, ChunkSize;
    OneSize();
    GreatestSize();
    ChunkReads("1", "a", Ended("7fffffffffffffff") + "bb", 0, 1, cap);
    ChunkBody("7fffffffffffffff", "bb", CLEN_MAX, 1, 1, cap);
  }

  lemma EndOfInput(cap: nat)
    ensures !GetLine("", cap).0.Line?
  {
  }
}
