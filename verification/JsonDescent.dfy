/** The parser of src/json.c keeps its own stack.  Here is the parser that it stands for, by recursive descent. */
module JsonDescent {
  import opened Options
  import opened Json
  import opened JsonText
  import opened JsonNumerals
  import opened JsonParse

  datatype Got = Got(val: Value, rest: string) | Bad(error: Error, at: string) | Halt

  predicate Starts(s: string, c: char) { s != "" && s[0] == c }

  /** A value at the start of `s`, after space. */
  function ReadValue(s: string): (g: Got)
    ensures g.Got? ==> |g.rest| <= |s|
    decreases |s|, 0
  {
    var t := SkipWs(s);
    if t == "" then Bad(BadTok, t)
    else if t[0] == '[' then ReadItems([], t[1..])
    else if t[0] == '{' then ReadMembers([], t[1..])
    else if t[0] == '"' then
      CopyPassShrinks(t[1..]);
      match GetText(t[1..])
      case Text(text, rest) => Got(String(text), rest)
      case BadString => Bad(BadText, t)
      case _ => Halt
    else if t[0] in "-+." || IsDigit(t[0]) then
      match ReadNumber(t)
      case Num(n, rest) => Got(Number(n), rest)
      case NotInteger => Halt
    else if "null" <= t then Got(Null, t[4..])
    else if "true" <= t then Got(Bool(true), t[4..])
    else if "false" <= t then Got(Bool(false), t[5..])
    else Bad(BadTok, t)
  }

  /** The rest of an array whose first items are `items`: values with commas between them, and maybe one behind. */
  function ReadItems(items: seq<Value>, s: string): (g: Got)
    ensures g.Got? ==> |g.rest| <= |s|
    decreases |s|, 1
  {
    var t := SkipWs(s);
    if Starts(t, ']') then Got(Array(items), t[1..])
    else
      match ReadValue(t)
      case Got(v, rest) =>
        var u := SkipWs(rest);
        if Starts(u, ',') then ReadItems(items + [v], u[1..])
        else if Starts(u, ']') then Got(Array(items + [v]), u[1..])
        else if Starts(u, '}') then Bad(BadTok, u)
        else Bad(BadDelim, u)
      case g => g
  }

  /** The rest of an object that has `pairs` already, from a key on. */
  function ReadMembers(pairs: seq<Pair>, s: string): (g: Got)
    ensures g.Got? ==> |g.rest| <= |s|
    decreases |s|, 1
  {
    var t := SkipWs(s);
    if Starts(t, '}') then Got(Object(pairs), t[1..])
    else
      match ReadValue(t)
      case Got(String(key), rest) =>
        var u := SkipWs(rest);
        if Starts(u, ':') then ReadMember(pairs, key, u[1..]) else Bad(BadDelim, u)
      case Got(_, rest) => Bad(BadTok, rest)
      case g => g
  }

  /** From the value of a key on; a key may lack it before the end of the object. */
  function ReadMember(pairs: seq<Pair>, key: string, s: string): (g: Got)
    ensures g.Got? ==> |g.rest| <= |s|
    decreases |s|, 1
  {
    var t := SkipWs(s);
    if Starts(t, '}') then Got(Object(pairs), t[1..])
    else
      match ReadValue(t)
      case Got(v, rest) =>
        var u := SkipWs(rest);
        if Starts(u, ',') then ReadMembers(Put(pairs, key, v), u[1..])
        else if Starts(u, '}') then Got(Object(Put(pairs, key, v)), u[1..])
        else if Starts(u, ']') then Bad(BadTok, u)
        else Bad(BadDelim, u)
      case g => g
  }

  /** The loop goes on with what the descent has got. */
  function Continue(ctx: Stack, g: Got): State {
    match g
    case Got(v, rest) => Parse(Deliver(ctx, v, rest))
    case Bad(e, at) => Fail(e, at)
    case Halt => Stop
  }

  lemma {:induction false} SkipTwice(s: string)
    ensures SkipWs(SkipWs(s)) == SkipWs(s)
  {
    if s != [] && IsSpace(s[0]) { SkipTwice(s[1..]); }
  }

  lemma OneTurn(ctx: Stack, s: string)
    ensures Parse(Run(ctx, s)) == Parse(Step(ctx, SkipWs(s)))
  {
    SkipTwice(s);
  }

  predicate Closes(t: string) { Starts(t, ']') || Starts(t, '}') }

  predicate ClosedBy(ctx: Stack, t: string) {
    ctx.Push? && ((ctx.obj.Array? && Starts(t, ']')) || (ctx.obj.Object? && Starts(t, '}')))
  }

  /** A bracket closes what it is for, and is an error for anything else. */
  lemma CloseTurn(ctx: Stack, s: string)
    requires Closes(SkipWs(s))
    ensures var t := SkipWs(s);
            Parse(Run(ctx, s)) == if ClosedBy(ctx, t) then Parse(Deliver(ctx.next, ctx.obj, t[1..])) else Fail(BadTok, t)
  {
    OneTurn(ctx, s);
    SkipTwice(s);
    hide Deliver, SkipWs;
  }

  /** After a value: a comma, a bracket, or an error. */
  lemma AfterTurn(more: Stack, rest: string)
    ensures var u := SkipWs(rest);
            Parse(AfterValue(more, rest)) ==
              if Starts(u, ',') then Parse(Run(more, u[1..]))
              else if ClosedBy(more, u) then Parse(Deliver(more.next, more.obj, u[1..]))
              else if Closes(u) then Fail(BadTok, u)
              else Fail(BadDelim, u)
  {
    var u := SkipWs(rest);
    if Closes(u) {
      SkipTwice(rest);
      CloseTurn(more, u);
    }
    hide Deliver, SkipWs, Step;
  }

  lemma ReadTrimmed(s: string)
    ensures ReadValue(SkipWs(s)) == ReadValue(s)
  {
    SkipTwice(s);
  }

  /** Only a quotation mark starts a string. */
  lemma {:induction false} OnlyQuoted(s: string)
    ensures ReadValue(s).Got? && ReadValue(s).val.String? ==> Starts(SkipWs(s), '"')
  {
    var t := SkipWs(s);
    if Starts(t, '[') { ItemsAreArray([], t[1..]); }
    if Starts(t, '{') { MembersAreObject([], t[1..]); }
  }

  lemma {:induction false} ItemsAreArray(items: seq<Value>, s: string)
    ensures ReadItems(items, s).Got? ==> ReadItems(items, s).val.Array?
    decreases |s|
  {
    var g := ReadValue(SkipWs(s));
    hide ReadValue;
    if g.Got? && SkipWs(g.rest) != "" { ItemsAreArray(items + [g.val], SkipWs(g.rest)[1..]); }
  }

  lemma {:induction false} MembersAreObject(pairs: seq<Pair>, s: string)
    ensures ReadMembers(pairs, s).Got? ==> ReadMembers(pairs, s).val.Object?
    decreases |s|
  {
    var g := ReadValue(SkipWs(s));
    hide ReadValue;
    if g.Got? && g.val.String? && SkipWs(g.rest) != "" { MemberIsObject(pairs, g.val.s, SkipWs(g.rest)[1..]); }
  }

  lemma {:induction false} MemberIsObject(pairs: seq<Pair>, key: string, s: string)
    ensures ReadMember(pairs, key, s).Got? ==> ReadMember(pairs, key, s).val.Object?
    decreases |s|
  {
    var g := ReadValue(SkipWs(s));
    hide ReadValue;
    if g.Got? && SkipWs(g.rest) != "" { MembersAreObject(Put(pairs, key, g.val), SkipWs(g.rest)[1..]); }
  }

  lemma ReadCloser(t: string)
    requires Closes(SkipWs(t))
    ensures ReadValue(t) == Bad(BadTok, SkipWs(t))
  {
    hide SkipWs;
  }

  /** Where a value is to come, the loop finds the value that the descent finds. */
  lemma {:induction false} DescendValue(ctx: Stack, s: string)
    requires !Closes(SkipWs(s)) && !(ctx.Push? && ctx.obj.Object? && ctx.key.None? && Starts(SkipWs(s), '"'))
    ensures Parse(Run(ctx, s)) == Continue(ctx, ReadValue(s))
    decreases |s|, 0
  {
    hide SkipWs, GetText, ReadNumber, Deliver, ReadItems, ReadMembers, CopyPass;
    var t := SkipWs(s);
    OneTurn(ctx, s);
    SkipTwice(s);
    if Starts(t, '[') {
      DescendItems([], ctx, t[1..]);
    } else if Starts(t, '{') {
      DescendMembers([], ctx, t[1..]);
    }
  }

  lemma {:induction false} DescendItems(items: seq<Value>, next: Stack, s: string)
    ensures Parse(Run(Push(Array(items), None, next), s)) == Continue(next, ReadItems(items, s))
    decreases |s|, 1
  {
    var ctx, t := Push(Array(items), None, next), SkipWs(s);
    ReadTrimmed(s);
    hide Parse, SkipWs, ReadValue, AfterValue;
    if Closes(t) {
      CloseTurn(ctx, s);
      ReadCloser(s);
    } else {
      DescendValue(ctx, s);
      var g := ReadValue(s);
      if g.Got? {
        var u := SkipWs(g.rest);
        AfterTurn(Push(Array(items + [g.val]), None, next), g.rest);
        if Starts(u, ',') { DescendItems(items + [g.val], next, u[1..]); }
        hide Deliver;
      }
    }
  }

  lemma KeyTurn(pairs: seq<Pair>, next: Stack, s: string)
    requires Starts(SkipWs(s), '"')
    ensures var ctx, g := Push(Object(pairs), None, next), ReadValue(s);
            && (g.Got? ==> g.val.String?)
            && Parse(Run(ctx, s)) ==
                 if g.Got? then
                   var u := SkipWs(g.rest);
                   if Starts(u, ':') then Parse(Run(ctx.(key := Some(g.val.s)), u[1..])) else Fail(BadDelim, u)
                 else Continue(next, g)
  {
    OneTurn(Push(Object(pairs), None, next), s);
    SkipTwice(s);
    hide SkipWs, GetText;
  }

  lemma {:induction false} DescendMembers(pairs: seq<Pair>, next: Stack, s: string)
    ensures Parse(Run(Push(Object(pairs), None, next), s)) == Continue(next, ReadMembers(pairs, s))
    decreases |s|, 1
  {
    var ctx, t, g := Push(Object(pairs), None, next), SkipWs(s), ReadValue(s);
    ReadTrimmed(s);
    if Starts(t, '"') { KeyTurn(pairs, next, s); }
    if g.Got? && g.val.String? && !Starts(t, '"') { OnlyQuoted(s); }
    assert forall v, rest :: Parse(Deliver(ctx, v, rest)) == Fail(BadTok, rest);
    hide Parse, SkipWs, ReadValue, Deliver;
    if Closes(t) {
      CloseTurn(ctx, s);
      ReadCloser(s);
    } else if Starts(t, '"') {
      if g.Got? && Starts(SkipWs(g.rest), ':') { DescendMember(pairs, g.val.s, next, SkipWs(g.rest)[1..]); }
    } else {
      DescendValue(ctx, s);
    }
  }

  lemma {:induction false} DescendMember(pairs: seq<Pair>, key: string, next: Stack, s: string)
    ensures Parse(Run(Push(Object(pairs), Some(key), next), s)) == Continue(next, ReadMember(pairs, key, s))
    decreases |s|, 1
  {
    var ctx, t := Push(Object(pairs), Some(key), next), SkipWs(s);
    ReadTrimmed(s);
    hide Parse, SkipWs, ReadValue, AfterValue, Put;
    if Closes(t) {
      CloseTurn(ctx, s);
      ReadCloser(s);
    } else {
      DescendValue(ctx, s);
      var g := ReadValue(s);
      if g.Got? {
        var u, more := SkipWs(g.rest), Put(pairs, key, g.val);
        AfterTurn(Push(Object(more), None, next), g.rest);
        if Starts(u, ',') { DescendMembers(more, next, u[1..]); }
        hide Deliver;
      }
    }
  }

  /** On every text the loop gives the value, the error and the place that recursive descent gives. */
  lemma ParserDescends(s: string)
    ensures Parse(Run(Empty, s)) ==
              match ReadValue(s)
              case Got(v, rest) => Done(v, rest)
              case Bad(e, at) => Fail(e, at)
              case Halt => Stop
  {
    if Closes(SkipWs(s)) {
      OneTurn(Empty, s);
      SkipTwice(s);
    } else {
      DescendValue(Empty, s);
    }
  }
}
