/** The recursive printer and the iterative parser of src/json.c, and the round trip. */
module JsonNumerals {

  function DigitChar(d: nat): char
    requires d < 10
  {
    "0123456789"[d]
  }

  predicate IsDigit(c: char) { '0' <= c <= '9' }

  function DigitValue(c: char): (d: nat)
    requires IsDigit(c)
    ensures d < 10
  {
    c as int - '0' as int
  }

  function Digits(n: nat): (s: string)
    ensures |s| > 0 && forall i | 0 <= i < |s| :: IsDigit(s[i])
  {
    (if n < 10 then "" else Digits(n / 10)) + [DigitChar(n % 10)]
  }

  function Decimal(n: int): string {
    if n < 0 then "-" + Digits(-n) else Digits(n)
  }

  const BUFFER := 127

  /** `json_format_integer`: "%.0f" into a buffer of 128 bytes. */
  function NumberText(n: int): string {
    var s := Decimal(n);
    if |s| <= BUFFER then s else s[..BUFFER]
  }

  /** Reading digits on from the value `acc`. */
  function ReadDigits(s: string, acc: nat): (r: (nat, string))
    ensures |r.1| <= |s|
    ensures s != [] && IsDigit(s[0]) ==> |r.1| < |s|
  {
    if s != [] && IsDigit(s[0]) then ReadDigits(s[1..], acc * 10 + DigitValue(s[0])) else (acc, s)
  }

  /** Characters that would make `strtod` read on beyond an integer numeral. */
  predicate ReadsOn(s: string) {
    s != [] && (IsDigit(s[0]) || s[0] in ".eExX")
  }

  datatype NumberResult = Num(n: int, rest: string) | NotInteger

  function Signed(minus: bool, n: int): int { if minus then -n else n }

  /** `strtod` on integer numerals: a sign, then digits.  Without digits nothing is consumed and
      the value is 0.  Fractions, exponents and hexadecimal numerals are not modelled. */
  function ReadNumber(s: string): (r: NumberResult)
    ensures r.Num? ==> |r.rest| <= |s|
  {
    var signed := s != [] && (s[0] == '-' || s[0] == '+');
    var t := if signed then s[1..] else s;
    if t == [] || !IsDigit(t[0]) then
      if t != [] && t[0] == '.' then NotInteger else Num(0, s)
    else
      var (n, rest) := ReadDigits(t, 0);
      if ReadsOn(rest) || |t| - |rest| > 308 then NotInteger
      else Num(Signed(signed && s[0] == '-', n), rest)
  }

  lemma {:induction false} ReadDigitsBack(n: nat, rest: string)
    ensures ReadDigits(Digits(n) + rest, 0) == ReadDigits(rest, n)
  {
    var d := [DigitChar(n % 10)];
    assert IsDigit(d[0]) && DigitValue(d[0]) == n % 10;
    assert (d + rest)[1..] == rest;
    if n >= 10 {
      ReadDigitsBack(n / 10, d + rest);
      assert Digits(n) + rest == Digits(n / 10) + (d + rest);
    } else {
      assert Digits(n) + rest == d + rest;
    }
  }

  lemma ReadDigitsStop(s: string, acc: nat)
    requires !ReadsOn(s)
    ensures ReadDigits(s, acc) == (acc, s)
  {
  }

  lemma NumberRoundTrip(n: int, rest: string)
    requires |Decimal(n)| <= BUFFER && !ReadsOn(rest)
    ensures ReadNumber(NumberText(n) + rest) == Num(n, rest)
  {
    var t := NumberText(n) + rest;
    var m := if n < 0 then -n else n;
    hide ReadDigits, Digits, DigitValue;
    ReadDigitsBack(m, rest);
    ReadDigitsStop(rest, m);
    var u := Digits(m) + rest;
    assert u[0] == Digits(m)[0];
    if n < 0 {
      assert t[1..] == u;
    } else {
      assert t == u;
    }
  }
}

module JsonParse {
  import opened Options
  import opened Json
  import opened JsonText
  import opened JsonNumerals

  // Printing.

  function Spaces(n: nat): (s: string)
    ensures forall i | 0 <= i < |s| :: s[i] == ' '
  {
    if n == 0 then "" else " " + Spaces(n - 1)
  }

  function Times(a: nat, b: nat): nat { a * b }

  /** `json_format_indent` */
  function Indent(indent: nat, level: nat): string { Spaces(Times(level, indent)) }

  function Newline(indent: nat): string { if indent > 0 then "\n" else "" }

  /** `json_format_delim` */
  function Delim(indent: nat, level: nat): string {
    "," + if indent > 0 then "\n" + Indent(indent, level) else " "
  }

  /** End of a non-empty array or object. */
  function Close(indent: nat, level: nat, bracket: char): string
    requires level > 0
  {
    (if indent > 0 then "\n" + Indent(indent, level - 1) else "") + [bracket]
  }

  /** The format function of a value; `level` has already been incremented for it. */
  function Print(v: Value, indent: nat, level: nat): string
    requires level > 0
    decreases v, 1
  {
    match v
    case Null => "null"
    case Bool(b) => if b then "true" else "false"
    case Number(n) => NumberText(n)
    case String(s) => Quoted(s)
    case Array(items) =>
      if items == [] then "[]"
      else "[" + Newline(indent) + Indent(indent, level) + Print(items[0], indent, level + 1) + ItemsFrom(v, 1, indent, level)
    case Object(pairs) =>
      if pairs == [] then "{}"
      else "{" + Newline(indent) + Indent(indent, level) + PairText(v, 0, indent, level) + PairsFrom(v, 1, indent, level)
  }

  /** The rest of an array from item i on, each preceded by a delimiter. */
  function ItemsFrom(v: Value, i: nat, indent: nat, level: nat): string
    requires v.Array? && i <= |v.items| && level > 0
    decreases v, 0, |v.items| - i
  {
    if i == |v.items| then Close(indent, level, ']')
    else Delim(indent, level) + Print(v.items[i], indent, level + 1) + ItemsFrom(v, i + 1, indent, level)
  }

  function PairText(v: Value, i: nat, indent: nat, level: nat): string
    requires v.Object? && i < |v.pairs| && level > 0
    decreases v, 0, |v.pairs| - i, 0
  {
    Quoted(v.pairs[i].k) + ":" + (if indent > 0 then " " else "") + Print(v.pairs[i].v, indent, level + 1)
  }

  function PairsFrom(v: Value, i: nat, indent: nat, level: nat): string
    requires v.Object? && i <= |v.pairs| && level > 0
    decreases v, 0, |v.pairs| - i, 1
  {
    if i == |v.pairs| then Close(indent, level, '}')
    else Delim(indent, level) + PairText(v, i, indent, level) + PairsFrom(v, i + 1, indent, level)
  }

  /** `json_value_format` from the top. */
  function Format(v: Value, indent: nat): string { Print(v, indent, 1) }

  function Sample(): Value { Object([Pair("a", Array([Bool(true), Null]))]) }

  /** How a document looks on one line. */
  lemma PrintedFlat()
    ensures Format(Sample(), 0) == "{\"a\":[true, null]}"
  {
    SampleObject(0);
    SampleArray(0, 2);
    hide Print;
    assert Spaces(0) == "";
  }

  /** The same document indented, line by line. */
  lemma PrintedIndented()
    ensures Format(Sample(), 2) == "{\n  " + ("\"a\":" + " " + ("[\n    " + "true" + ",\n    " + "null" + "\n  ]")) + "\n}"
  {
    SampleObject(2);
    SampleArray(2, 2);
    IndentedParts();
    hide *;
    assert "{" + Newline(2) + Indent(2, 1) == "{" + (Newline(2) + Indent(2, 1));
    assert "[" + Newline(2) + Indent(2, 2) == "[" + (Newline(2) + Indent(2, 2));
  }

  lemma IndentedParts()
    ensures Newline(2) + Indent(2, 1) == "\n  " && Newline(2) + Indent(2, 2) == "\n    " && Delim(2, 2) == ",\n    "
    ensures Close(2, 2, ']') == "\n  ]" && Close(2, 1, '}') == "\n}"
  {
    assert Spaces(0) == "" && Spaces(1) == " " && Spaces(2) == "  " && Spaces(3) == "   " && Spaces(4) == "    ";
  }

  lemma SampleObject(indent: nat)
    ensures Format(Sample(), indent) ==
              "{" + Newline(indent) + Indent(indent, 1) + ("\"a\":" + (if indent > 0 then " " else "") +
              Print(Array([Bool(true), Null]), indent, 2)) + Close(indent, 1, '}')
  {
    var v := Sample();
    OneEscaped('a');
    assert Quoted("a") + ":" == "\"a\":";
    assert PairsFrom(v, 1, indent, 1) == Close(indent, 1, '}');
    hide EscapeText, Quoted, ItemsFrom, Spaces;
  }

  lemma SampleArray(indent: nat, level: nat)
    requires level > 0
    ensures var d := Delim(indent, level);
            Print(Array([Bool(true), Null]), indent, level) ==
              "[" + Newline(indent) + Indent(indent, level) + "true" + d + "null" + Close(indent, level, ']')
  {
    hide Delim, Close, Newline, Indent;
    var v := Array([Bool(true), Null]);
    assert ItemsFrom(v, 2, indent, level) == Close(indent, level, ']');
    assert ItemsFrom(v, 1, indent, level) == Delim(indent, level) + "null" + Close(indent, level, ']');
    assert Print(v.items[0], indent, level + 1) == "true";
  }

  // Parsing.

  datatype Stack = Empty | Push(obj: Value, key: Option<string>, next: Stack)

  datatype Error = BadTok | BadDelim | BadText

  /** `Stop` is memory misuse or an unmodelled numeral or escape. */
  datatype State =
    | Run(ctx: Stack, input: string)
    | Done(val: Value, rest: string)
    | Fail(error: Error, rest: string)
    | Stop

  predicate IsSpace(c: char) { c == ' ' || c == '\t' || c == '\n' || c == '\r' }

  function SkipWs(s: string): (r: string)
    ensures |r| <= |s|
  {
    if s != [] && IsSpace(s[0]) then SkipWs(s[1..]) else s
  }

  /** What follows a value inside an array or object. */
  function AfterValue(ctx: Stack, input: string): (st: State)
    ensures st.Run? ==> |st.input| <= |input|
    ensures st.Run? && |st.input| == |input| ==> input != [] && (input[0] == ']' || input[0] == '}')
  {
    var s := SkipWs(input);
    if At(s, 0) == ',' && s != [] then Run(ctx, s[1..])
    else if s != [] && (s[0] == ']' || s[0] == '}') then Run(ctx, s)
    else Fail(BadDelim, s)
  }

  /** A complete value: the result, or stored in the innermost array or object. */
  function Deliver(ctx: Stack, val: Value, input: string): (st: State)
    ensures st.Run? ==> |st.input| <= |input|
    ensures st.Run? && |st.input| == |input| ==> input != [] && (input[0] == ']' || input[0] == '}')
  {
    match ctx
    case Empty => Done(val, input)
    case Push(obj, key, next) =>
      match obj
      case Array(items) => AfterValue(Push(Array(items + [val]), key, next), input)
      case Object(pairs) =>
        if key.None? then Fail(BadTok, input)
        else AfterValue(Push(Object(Put(pairs, key.value, val)), None, next), input)
      case _ => Stop
  }

  predicate StartsWith(s: string, word: string) { word <= s }

  /** One turn of the loop of `json_parse_string`. */
  function Step(ctx: Stack, input: string): (st: State)
    ensures st.Run? ==> |st.input| < |input|
  {
    var s := SkipWs(input);
    var c := At(s, 0);
    if s == [] then Fail(BadTok, s)
    else if c == '[' then Run(Push(Array([]), None, ctx), s[1..])
    else if c == '{' then Run(Push(Object([]), None, ctx), s[1..])
    else if c == ']' then
      if ctx.Push? && ctx.obj.Array? then Deliver(ctx.next, ctx.obj, s[1..]) else Fail(BadTok, s)
    else if c == '}' then
      if ctx.Push? && ctx.obj.Object? then Deliver(ctx.next, ctx.obj, s[1..]) else Fail(BadTok, s)
    else if c == '"' then StepText(ctx, s)
    else if c in "-+." || IsDigit(c) then
      match ReadNumber(s)
      case NotInteger => Stop
      case Num(n, rest) => Deliver(ctx, Number(n), rest)
    else if StartsWith(s, "null") then Deliver(ctx, Null, s[4..])
    else if StartsWith(s, "true") then Deliver(ctx, Bool(true), s[4..])
    else if StartsWith(s, "false") then Deliver(ctx, Bool(false), s[5..])
    else Fail(BadTok, s)
  }

  /** A quoted text: the key of the innermost object if that still lacks one, else a string. */
  function StepText(ctx: Stack, s: string): (st: State)
    requires s != [] && s[0] == '"'
    ensures st.Run? ==> |st.input| < |s|
  {
    match GetText(s[1..])
    case BadString => Fail(BadText, s)
    case Overrun => Stop
    case NotModelled => Stop
    case Text(text, rest) =>
      CopyPassShrinks(s[1..]);
      if ctx.Push? && ctx.obj.Object? && ctx.key.None? then
        var t := SkipWs(rest);
        if t != [] && t[0] == ':' then Run(ctx.(key := Some(text)), t[1..]) else Fail(BadDelim, t)
      else Deliver(ctx, String(text), rest)
  }

  lemma {:induction false} CopyPassShrinks(s: string)
    ensures CopyPass(s).Copied? ==> |CopyPass(s).rest| < |s|
    decreases |s|
  {
    if s != [] && s[0] != '"' {
      CopyPassShrinks(Drop(s, 1));
      CopyPassShrinks(Drop(s, 2));
    }
  }

  /** The whole loop. */
  function Parse(st: State): (r: State)
    ensures !r.Run?
    decreases if st.Run? then |st.input| + 1 else 0
  {
    if st.Run? then Parse(Step(st.ctx, st.input)) else st
  }

  // The round trip.

  /** Values the printer's text stands for: sorted keys, strings that the reader's first pass
      measures correctly, numbers that fit the number buffer. */
  predicate Printable(v: Value)
    decreases v
  {
    match v
    case Null => true
    case Bool(_) => true
    case Number(n) => |Decimal(n)| <= BUFFER
    case String(s) => NoNul(s) && NoHexRun(s)
    case Array(items) => forall i | 0 <= i < |items| :: Printable(items[i])
    case Object(pairs) =>
      && Sorted(pairs)
      && forall i | 0 <= i < |pairs| :: NoNul(pairs[i].k) && NoHexRun(pairs[i].k) && Printable(pairs[i].v)
  }

  predicate AllSpace(s: string) { forall i | 0 <= i < |s| :: IsSpace(s[i]) }

  lemma {:induction false} SkipSpaces(ws: string, s: string)
    requires AllSpace(ws)
    ensures SkipWs(ws + s) == SkipWs(s)
  {
    if ws != [] {
      SkipSpaces(ws[1..], s);
      assert (ws + s)[1..] == ws[1..] + s;
    } else {
      assert ws + s == s;
    }
  }

  /** Leading space makes no difference to a turn of the loop. */
  lemma RunSpaces(ctx: Stack, ws: string, s: string)
    requires AllSpace(ws)
    ensures Parse(Run(ctx, ws + s)) == Parse(Run(ctx, s))
  {
    SkipSpaces(ws, s);
  }

  /** The place where a value may come: at the top, in an array, or after a key. */
  predicate Accepts(ctx: Stack) {
    ctx.Push? ==> ctx.obj.Array? || (ctx.obj.Object? && ctx.key.Some?)
  }

  lemma WordRuns(v: Value, word: string, ctx: Stack, rest: string)
    requires (v, word) == (Null, "null") || (v, word) == (Bool(true), "true") || (v, word) == (Bool(false), "false")
    ensures Step(ctx, word + rest) == Deliver(ctx, v, rest)
  {
    hide Deliver, ReadNumber, StepText;
    var t := word + rest;
    assert t[..|word|] == word && t[|word|..] == rest;
    assert t[0] == word[0] && t[1] == word[1];
    assert SkipWs(t) == t;
  }

  lemma NumberRuns(n: int, ctx: Stack, rest: string)
    requires |Decimal(n)| <= BUFFER && !ReadsOn(rest)
    ensures Step(ctx, NumberText(n) + rest) == Deliver(ctx, Number(n), rest)
  {
    var t := NumberText(n) + rest;
    NumberRoundTrip(n, rest);
    assert IsDigit(t[0]) || t[0] == '-';
    hide Deliver, ReadNumber, StepText, NumberText;
    assert SkipWs(t) == t;
  }

  lemma StringRuns(s: string, ctx: Stack, rest: string)
    requires NoNul(s) && NoHexRun(s) && Accepts(ctx)
    ensures Step(ctx, Quoted(s) + rest) == Deliver(ctx, String(s), rest)
  {
    TextRoundTrip(s, rest);
    QuotedSplit(s, rest);
    hide Deliver, ReadNumber, GetText, Quoted, Closed;
    var t := Quoted(s) + rest;
    assert SkipWs(t) == t;
  }

  lemma QuotedSplit(s: string, rest: string)
    ensures var t := Quoted(s) + rest; t != [] && t[0] == '"' && t[1..] == Closed(s, rest)
  {
    assert Quoted(s) + rest == "\"" + Closed(s, rest);
  }

  /** Scalars take one turn. */
  lemma ScalarRuns(v: Value, indent: nat, level: nat, ctx: Stack, rest: string)
    requires level > 0 && Printable(v) && Accepts(ctx) && !v.Array? && !v.Object?
    requires v.Number? ==> !ReadsOn(rest)
    ensures Step(ctx, Print(v, indent, level) + rest) == Deliver(ctx, v, rest)
  {
    hide Step, Deliver, Accepts, ReadsOn;
    match v
    case Null => WordRuns(v, "null", ctx, rest);
    case Bool(b) => WordRuns(v, if b then "true" else "false", ctx, rest);
    case Number(n) => NumberRuns(n, ctx, rest);
    case String(s) => StringRuns(s, ctx, rest);
  }

  lemma ParseStep(ctx: Stack, s: string)
    ensures Parse(Run(ctx, s)) == Parse(Step(ctx, s))
  {
  }

  lemma CloseRuns(ctx: Stack, indent: nat, level: nat, bracket: char, rest: string)
    requires level > 0 && (bracket == ']' || bracket == '}')
    ensures AfterValue(ctx, Close(indent, level, bracket) + rest) == Run(ctx, [bracket] + rest)
    ensures !ReadsOn(Close(indent, level, bracket) + rest)
  {
    var ws := if indent > 0 then "\n" + Indent(indent, level - 1) else "";
    assert Close(indent, level, bracket) + rest == ws + ([bracket] + rest);
    SkipSpaces(ws, [bracket] + rest);
  }

  lemma DelimRuns(ctx: Stack, indent: nat, level: nat, t: string)
    ensures Parse(AfterValue(ctx, Delim(indent, level) + t)) == Parse(Run(ctx, t))
    ensures !ReadsOn(Delim(indent, level) + t)
  {
    var ws := if indent > 0 then "\n" + Indent(indent, level) else " ";
    assert Delim(indent, level) + t == "," + (ws + t);
    assert ("," + (ws + t))[1..] == ws + t;
    RunSpaces(ctx, ws, t);
  }

  lemma ItemsRest(v: Value, i: nat, indent: nat, level: nat, rest: string)
    requires v.Array? && i <= |v.items| && level > 0
    ensures !ReadsOn(ItemsFrom(v, i, indent, level) + rest)
  {
    if i == |v.items| {
      CloseRuns(Empty, indent, level, ']', rest);
    }
  }

  lemma PairsRest(v: Value, i: nat, indent: nat, level: nat, rest: string)
    requires v.Object? && i <= |v.pairs| && level > 0
    ensures !ReadsOn(PairsFrom(v, i, indent, level) + rest)
  {
    if i == |v.pairs| {
      CloseRuns(Empty, indent, level, '}', rest);
    }
  }

  /** The printed text of a value makes the loop deliver that value, whatever the context. */
  lemma {:induction false} PrintedRuns(v: Value, indent: nat, level: nat, ctx: Stack, rest: string)
    requires level > 0 && Printable(v) && Accepts(ctx)
    requires v.Number? ==> !ReadsOn(rest)
    ensures Parse(Run(ctx, Print(v, indent, level) + rest)) == Parse(Deliver(ctx, v, rest))
    decreases v, 1
  {
    hide Parse, Step, Deliver, Print;
    if v.Array? {
      ArrayRuns(v, indent, level, ctx, rest);
    } else if v.Object? {
      ObjectRuns(v, indent, level, ctx, rest);
    } else {
      ScalarRuns(v, indent, level, ctx, rest);
      ParseStep(ctx, Print(v, indent, level) + rest);
    }
  }

  lemma OpenRuns(ctx: Stack, bracket: char, t: string)
    requires bracket == '[' || bracket == '{'
    ensures Parse(Run(ctx, [bracket] + t)) ==
            Parse(Run(Push(if bracket == '[' then Array([]) else Object([]), None, ctx), t))
  {
    assert ([bracket] + t)[1..] == t;
    ParseStep(ctx, [bracket] + t);
    hide Parse;
  }

  lemma BracketRuns(ctx: Stack, bracket: char, rest: string)
    requires ctx.Push? && ((bracket == ']' && ctx.obj.Array?) || (bracket == '}' && ctx.obj.Object?))
    ensures Parse(Run(ctx, [bracket] + rest)) == Parse(Deliver(ctx.next, ctx.obj, rest))
  {
    assert ([bracket] + rest)[1..] == rest;
    ParseStep(ctx, [bracket] + rest);
    hide Parse, Deliver;
  }

  // The printed text cut where the parser's turns end.

  lemma ArrayText(v: Value, indent: nat, level: nat, rest: string)
    requires level > 0 && v.Array?
    ensures Print(v, indent, level) + rest ==
            ['['] + if v.items == [] then [']'] + rest
                    else (Newline(indent) + Indent(indent, level)) +
                         (Print(v.items[0], indent, level + 1) + (ItemsFrom(v, 1, indent, level) + rest))
  {
  }

  lemma ItemsText(v: Value, i: nat, indent: nat, level: nat, rest: string)
    requires level > 0 && v.Array? && i < |v.items|
    ensures ItemsFrom(v, i, indent, level) + rest ==
            Delim(indent, level) + (Print(v.items[i], indent, level + 1) + (ItemsFrom(v, i + 1, indent, level) + rest))
  {
    hide Print, Delim;
  }

  lemma ObjectText(v: Value, indent: nat, level: nat, rest: string)
    requires level > 0 && v.Object?
    ensures Print(v, indent, level) + rest ==
            ['{'] + if v.pairs == [] then ['}'] + rest
                    else (Newline(indent) + Indent(indent, level)) +
                         (PairText(v, 0, indent, level) + (PairsFrom(v, 1, indent, level) + rest))
  {
    hide PairText;
  }

  lemma PairsText(v: Value, i: nat, indent: nat, level: nat, rest: string)
    requires level > 0 && v.Object? && i < |v.pairs|
    ensures PairsFrom(v, i, indent, level) + rest ==
            Delim(indent, level) + (PairText(v, i, indent, level) + (PairsFrom(v, i + 1, indent, level) + rest))
  {
    hide PairText, Delim;
  }

  lemma KeyText(v: Value, i: nat, indent: nat, level: nat, tail: string)
    requires level > 0 && v.Object? && i < |v.pairs|
    ensures PairText(v, i, indent, level) + tail ==
            Quoted(v.pairs[i].k) + ([':'] + ((if indent > 0 then " " else "") + (Print(v.pairs[i].v, indent, level + 1) + tail)))
  {
    hide Print, Quoted;
  }

  lemma LeadingSpace(indent: nat, level: nat)
    ensures AllSpace(Newline(indent) + Indent(indent, level))
  {
  }

  lemma DeliverItem(items: seq<Value>, ctx: Stack, val: Value, input: string)
    ensures Deliver(Push(Array(items), None, ctx), val, input) ==
            AfterValue(Push(Array(items + [val]), None, ctx), input)
  {
  }

  lemma DeliverPair(pairs: seq<Pair>, k: string, ctx: Stack, val: Value, input: string)
    ensures Deliver(Push(Object(pairs), Some(k), ctx), val, input) ==
            AfterValue(Push(Object(Put(pairs, k, val)), None, ctx), input)
  {
  }

  lemma {:induction false} ArrayRuns(v: Value, indent: nat, level: nat, ctx: Stack, rest: string)
    requires level > 0 && v.Array? && Printable(v)
    ensures Parse(Run(ctx, Print(v, indent, level) + rest)) == Parse(Deliver(ctx, v, rest))
    decreases v, 0, |v.items| + 1
  {
    hide Parse, Deliver, AfterValue, Print, ItemsFrom, Newline, Indent, AllSpace, ReadsOn;
    ArrayText(v, indent, level, rest);
    if v.items == [] {
      OpenRuns(ctx, '[', [']'] + rest);
      BracketRuns(Push(v, None, ctx), ']', rest);
    } else {
      var ws := Newline(indent) + Indent(indent, level);
      var tail := ItemsFrom(v, 1, indent, level) + rest;
      var u := Print(v.items[0], indent, level + 1) + tail;
      var top := Push(Array([]), None, ctx);
      OpenRuns(ctx, '[', ws + u);
      LeadingSpace(indent, level);
      RunSpaces(top, ws, u);
      ItemsRest(v, 1, indent, level, rest);
      PrintedRuns(v.items[0], indent, level + 1, top, tail);
      DeliverItem([], ctx, v.items[0], tail);
      assert [] + [v.items[0]] == v.items[..1];
      ItemsRun(v, 1, indent, level, ctx, rest);
    }
  }

  /** After i items have been stored, the rest of the text completes the array. */
  lemma {:induction false} ItemsRun(v: Value, i: nat, indent: nat, level: nat, ctx: Stack, rest: string)
    requires level > 0 && v.Array? && Printable(v) && i <= |v.items|
    ensures Parse(AfterValue(Push(Array(v.items[..i]), None, ctx), ItemsFrom(v, i, indent, level) + rest)) ==
            Parse(Deliver(ctx, v, rest))
    decreases v, 0, |v.items| - i
  {
    hide Parse, Deliver, AfterValue, Print, Close, Delim, ReadsOn;
    var top := Push(Array(v.items[..i]), None, ctx);
    if i == |v.items| {
      assert v.items[..i] == v.items;
      CloseRuns(top, indent, level, ']', rest);
      BracketRuns(top, ']', rest);
    } else {
      ItemsText(v, i, indent, level, rest);
      var tail := ItemsFrom(v, i + 1, indent, level) + rest;
      DelimRuns(top, indent, level, Print(v.items[i], indent, level + 1) + tail);
      ItemsRest(v, i + 1, indent, level, rest);
      PrintedRuns(v.items[i], indent, level + 1, top, tail);
      DeliverItem(v.items[..i], ctx, v.items[i], tail);
      assert v.items[..i] + [v.items[i]] == v.items[..i + 1];
      ItemsRun(v, i + 1, indent, level, ctx, rest);
    }
  }

  lemma {:induction false} ObjectRuns(v: Value, indent: nat, level: nat, ctx: Stack, rest: string)
    requires level > 0 && v.Object? && Printable(v)
    ensures Parse(Run(ctx, Print(v, indent, level) + rest)) == Parse(Deliver(ctx, v, rest))
    decreases v, 0, |v.pairs| + 1
  {
    hide Parse, Deliver, AfterValue, Print, PairsFrom, PairText, Newline, Indent, AllSpace, ReadsOn;
    ObjectText(v, indent, level, rest);
    if v.pairs == [] {
      OpenRuns(ctx, '{', ['}'] + rest);
      BracketRuns(Push(v, None, ctx), '}', rest);
    } else {
      var ws := Newline(indent) + Indent(indent, level);
      var u := PairText(v, 0, indent, level) + (PairsFrom(v, 1, indent, level) + rest);
      OpenRuns(ctx, '{', ws + u);
      LeadingSpace(indent, level);
      RunSpaces(Push(Object([]), None, ctx), ws, u);
      assert v.pairs[..0] == [];
      PairRuns(v, 0, indent, level, ctx, rest);
    }
  }

  /** Key, colon and value of pair i, and then the rest. */
  lemma {:induction false} PairRuns(v: Value, i: nat, indent: nat, level: nat, ctx: Stack, rest: string)
    requires level > 0 && v.Object? && Printable(v) && i < |v.pairs|
    ensures Parse(Run(Push(Object(v.pairs[..i]), None, ctx),
                      PairText(v, i, indent, level) + (PairsFrom(v, i + 1, indent, level) + rest))) ==
            Parse(Deliver(ctx, v, rest))
    decreases v, 0, |v.pairs| - i, 0
  {
    hide Parse, Deliver, AfterValue, Print, PairsFrom, PairText, Quoted, NoNul, NoHexRun, Put, ReadsOn;
    var p, tail := v.pairs[i], PairsFrom(v, i + 1, indent, level) + rest;
    var top, keyed := Push(Object(v.pairs[..i]), None, ctx), Push(Object(v.pairs[..i]), Some(p.k), ctx);
    var ws, u := if indent > 0 then " " else "", Print(p.v, indent, level + 1) + tail;
    KeyText(v, i, indent, level, tail);
    KeyRuns(v.pairs[..i], ctx, p.k, ws + u);
    RunSpaces(keyed, ws, u);
    PairsRest(v, i + 1, indent, level, rest);
    PrintedRuns(p.v, indent, level + 1, keyed, tail);
    DeliverPair(v.pairs[..i], p.k, ctx, p.v, tail);
    PutAppends(v.pairs, i);
    PairsRun(v, i + 1, indent, level, ctx, rest);
  }

  lemma KeyRuns(pairs: seq<Pair>, ctx: Stack, k: string, t: string)
    requires NoNul(k) && NoHexRun(k)
    ensures Parse(Run(Push(Object(pairs), None, ctx), Quoted(k) + ([':'] + t))) ==
            Parse(Run(Push(Object(pairs), Some(k), ctx), t))
  {
    var s := Quoted(k) + ([':'] + t);
    TextRoundTrip(k, [':'] + t);
    QuotedSplit(k, [':'] + t);
    assert ([':'] + t)[1..] == t;
    ParseStep(Push(Object(pairs), None, ctx), s);
    hide Parse, Deliver, Quoted, Closed, GetText, ReadNumber;
    assert SkipWs(s) == s && SkipWs([':'] + t) == [':'] + t;
  }

  lemma {:induction false} PairsRun(v: Value, i: nat, indent: nat, level: nat, ctx: Stack, rest: string)
    requires level > 0 && v.Object? && Printable(v) && i <= |v.pairs|
    ensures Parse(AfterValue(Push(Object(v.pairs[..i]), None, ctx), PairsFrom(v, i, indent, level) + rest)) ==
            Parse(Deliver(ctx, v, rest))
    decreases v, 0, |v.pairs| - i, 1
  {
    hide Parse, Deliver, AfterValue, PairText, Close, Delim;
    var top := Push(Object(v.pairs[..i]), None, ctx);
    if i == |v.pairs| {
      assert v.pairs[..i] == v.pairs;
      CloseRuns(top, indent, level, '}', rest);
      BracketRuns(top, '}', rest);
    } else {
      PairsText(v, i, indent, level, rest);
      DelimRuns(top, indent, level, PairText(v, i, indent, level) + (PairsFrom(v, i + 1, indent, level) + rest));
      PairRuns(v, i, indent, level, ctx, rest);
    }
  }

  /** Keys that come in order are appended. */
  lemma PutAppends(pairs: seq<Pair>, i: nat)
    requires Sorted(pairs) && i < |pairs|
    ensures Put(pairs[..i], pairs[i].k, pairs[i].v) == pairs[..i + 1]
  {
    PutInserts(pairs[..i], i, pairs[i]);
    assert Insert(pairs[..i], i, pairs[i]) == pairs[..i + 1];
  }

  /** Parsing the text printed for a value, at any indent, gives the value back and stops exactly
      at the end of the text. */
  lemma RoundTrip(v: Value, indent: nat, rest: string)
    requires Printable(v) && (v.Number? ==> !ReadsOn(rest))
    ensures Parse(Run(Empty, Format(v, indent) + rest)) == Done(v, rest)
  {
    PrintedRuns(v, indent, 1, Empty, rest);
  }

  /** A string document reads back if and only if it has no hex run. */
  lemma StringDocumentIff(s: string, indent: nat)
    requires NoNul(s)
    ensures Parse(Run(Empty, Format(String(s), indent))) == Done(String(s), "") <==> NoHexRun(s)
  {
    var t := Format(String(s), indent);
    assert t[0] == '"' && SkipWs(t) == t;
    assert t[1..] == Closed(s, "");
    TextRoundTripIff(s);
  }

  // The parser's loop.

  /** `json_parse_string` */
  method ParseString(input: string) returns (r: State)
    ensures r == Parse(Run(Empty, input))
  {
    var ctx, s := Empty, input;
    while true
      invariant Parse(Run(ctx, s)) == Parse(Run(Empty, input))
      decreases |s|
    {
      var st := Turn(ctx, s);
      if !st.Run? { return st; }
      ctx, s := st.ctx, st.input;
    }
  }

  /** `SKIPWS` */
  method SkipBlanks(input: string) returns (s: string)
    ensures s == SkipWs(input)
  {
    s := input;
    while s != [] && IsSpace(s[0])
      invariant SkipWs(s) == SkipWs(input)
      decreases |s|
    {
      s := s[1..];
    }
  }

  /** `j_context_type`: the kind of the innermost array or object, if there is one. */
  predicate InArray(ctx: Stack) { ctx.Push? && ctx.obj.Array? }

  predicate InObject(ctx: Stack) { ctx.Push? && ctx.obj.Object? }

  /** What the switch on the first character comes to: the loop goes on, stops, or has a value. */
  datatype Token = Next(st: State) | Have(val: Value, ctx: Stack, rest: string)

  /** How a token stands to the turn that it is part of. */
  ghost predicate Means(t: Token, st: State) {
    match t
    case Next(u) => u == st
    case Have(val, ctx, rest) => Deliver(ctx, val, rest) == st
  }

  /** The closing brackets: the innermost array or object is complete. */
  method PopContext(ctx: Stack, s: string) returns (t: Token)
    requires s != [] && (s[0] == ']' || s[0] == '}')
    ensures Means(t, Step(ctx, s))
  {
    if s[0] == ']' && InArray(ctx) { return Have(ctx.obj, ctx.next, s[1..]); }
    if s[0] == '}' && InObject(ctx) { return Have(ctx.obj, ctx.next, s[1..]); }
    return Next(Fail(BadTok, s));
  }

  /** A quoted text: a key if the innermost object lacks one, with its colon, else a string. */
  method TextToken(ctx: Stack, s: string) returns (t: Token)
    requires s != [] && s[0] == '"'
    ensures Means(t, Step(ctx, s))
  {
    hide GetText, Deliver;
    var text := ReadText(s[1..]);
    match text {
      case BadString => return Next(Fail(BadText, s));
      case Overrun => return Next(Stop);
      case NotModelled => return Next(Stop);
      case Text(str, rest) =>
        if InObject(ctx) && ctx.key.None? {
          var u := SkipBlanks(rest);
          if u != [] && u[0] == ':' { return Next(Run(ctx.(key := Some(str)), u[1..])); }
          return Next(Fail(BadDelim, u));
        }
        return Have(String(str), ctx, rest);
    }
  }

  /** Numbers and words. */
  method PlainToken(ctx: Stack, s: string) returns (t: Token)
    requires s != [] && !IsSpace(s[0]) && s[0] !in "[]{}\""
    ensures Means(t, Step(ctx, s))
  {
    hide ReadNumber, Deliver;
    if s[0] == '-' || s[0] == '+' || s[0] == '.' || '0' <= s[0] <= '9' {
      var n := ReadNumber(s);
      if n.NotInteger? { return Next(Stop); }
      return Have(Number(n.n), ctx, n.rest);
    }
    if |s| >= 4 && s[..4] == "null" { return Have(Null, ctx, s[4..]); }
    if |s| >= 4 && s[..4] == "true" { return Have(Bool(true), ctx, s[4..]); }
    if |s| >= 5 && s[..5] == "false" { return Have(Bool(false), ctx, s[5..]); }
    return Next(Fail(BadTok, s));
  }

  /** The value is the result, or is stored in the innermost array or object; then a delimiter must follow. */
  method Store(ctx: Stack, val: Value, input: string) returns (st: State)
    ensures st == Deliver(ctx, val, input)
  {
    if ctx.Empty? { return Done(val, input); }
    var obj, key := ctx.obj, ctx.key;
    if obj.Array? {
      obj := Array(obj.items + [val]);
    } else if obj.Object? {
      if key.None? { return Fail(BadTok, input); }
      obj, key := Object(Put(obj.pairs, key.value, val)), None;
    } else {
      return Stop;
    }
    var s := SkipBlanks(input);
    if s != [] && s[0] == ',' { return Run(Push(obj, key, ctx.next), s[1..]); }
    if s != [] && (s[0] == ']' || s[0] == '}') { return Run(Push(obj, key, ctx.next), s); }
    return Fail(BadDelim, s);
  }

  /** Body of the loop of `json_parse_string`. */
  method Turn(ctx: Stack, input: string) returns (st: State)
    ensures st == Step(ctx, input)
  {
    var s := SkipBlanks(input);
    SkippedStep(ctx, input);
    hide Deliver, StepText, ReadNumber;
    if s == [] { return Fail(BadTok, s); }
    var t: Token;
    if s[0] == '[' {
      return Run(Push(Array([]), None, ctx), s[1..]);
    } else if s[0] == '{' {
      return Run(Push(Object([]), None, ctx), s[1..]);
    } else if s[0] == ']' || s[0] == '}' {
      t := PopContext(ctx, s);
    } else if s[0] == '"' {
      t := TextToken(ctx, s);
    } else {
      t := PlainToken(ctx, s);
    }
    if t.Next? { return t.st; }
    st := Store(t.ctx, t.val, t.rest);
  }

  lemma {:induction false} SkippedStep(ctx: Stack, input: string)
    ensures var s := SkipWs(input); Step(ctx, s) == Step(ctx, input) && (s != [] ==> !IsSpace(s[0]))
  {
    SkippedTwice(input);
  }

  lemma {:induction false} SkippedTwice(input: string)
    ensures var s := SkipWs(input); SkipWs(s) == s && (s != [] ==> !IsSpace(s[0]))
  {
    if input != [] && IsSpace(input[0]) { SkippedTwice(input[1..]); }
  }
}
