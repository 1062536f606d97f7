/** The relay of a chunked body, as it runs on its two connections (src/http.c).  Reads may be short, and a
    read or a write may fail at any time. */
module Relays {
  import opened Options
  import opened Lines
  import opened Lengths
  import opened Chunks

  const MAXBUF := 4096

  datatype CopyStatus = Complete | Truncated | Fault

  /** How one chunk ends: with the next one, with the trailers, or for good. */
  datatype Turn = Again(tot: int) | Trailers | Stop(status: Status)

  lemma PrefixedTwice(o: string, b: string, l: seq<string>, p: string, d: string, k: seq<string>, c: Copied)
    ensures Prefixed(o, b, l, Prefixed(p, d, k, c)) == Prefixed(o + p, b + d, l + k, c)
  {
    assert o + (p + c.out) == o + p + c.out;
    assert b + (d + c.body) == b + d + c.body;
    assert l + (k + c.lines) == l + k + c.lines;
  }

  /** The first `i` characters of `s` have been read: `line`, and perhaps a CR. */
  ghost predicate Scanned(s: string, i: nat, line: string, cr: bool) {
    && i <= |s| && PlainLine(line)
    && if cr then i > 0 && line == s[..i - 1] && s[i - 1] == '\r' else line == s[..i]
  }

  lemma ScanNone(s: string)
    ensures Scanned(s, 0, "", false)
  {
  }

  lemma ScanNext(s: string, i: nat, line: string)
    requires Scanned(s, i, line, false) && i < |s|
    ensures Plain(s[i]) ==> Scanned(s, i + 1, line + [s[i]], false)
    ensures s[i] == '\r' ==> Scanned(s, i + 1, line, true)
  {
  }

  lemma {:induction false} ScanEnd(s: string, i: nat, line: string, cr: bool, cap: nat)
    requires Scanned(s, i, line, cr) && i == |s| && i < cap
    ensures GetLine(s, cap) == (if i == 0 then Eof else Line(line), "")
  {
    hide PlainEnd, Drained;
    assert s[..|s|] == s;
    PlainPrefix(s, |line|);
  }

  lemma {:induction false} ScanStop(s: string, i: nat, line: string, cr: bool, cap: nat)
    requires Scanned(s, i, line, cr) && i < |s| && i < cap && (cr || (!Plain(s[i]) && s[i] != '\r'))
    ensures GetLine(s, cap) == if s[i] == '\n' then (Line(line), s[i + 1..]) else (BadData, Drained(s[i + 1..]))
  {
    hide PlainEnd, Drained;
    PlainPrefix(s, |line|);
  }

  lemma {:induction false} ScanFull(s: string, i: nat, line: string, cr: bool)
    requires Scanned(s, i, line, cr)
    ensures GetLine(s, i) == (TooLong, Drained(s[i..]))
  {
    hide PlainEnd, Drained;
    if cr { PlainPrefix(s, |line|); } else { PlainAtLeast(s, i); }
  }

  lemma PlainPrefix(s: string, n: nat)
    requires n <= |s| && PlainLine(s[..n]) && (n < |s| ==> !Plain(s[n]))
    ensures PlainEnd(s) == n
  {
    assert forall j | 0 <= j < n :: s[..n][j] == s[j];
    PlainEndIs(s, n);
  }

  lemma PlainAtLeast(s: string, n: nat)
    requires n <= |s| && PlainLine(s[..n])
    ensures PlainEnd(s) >= n
  {
    hide PlainEnd;
    assert forall j | 0 <= j < n :: s[..n][j] == s[j];
  }

  lemma Taken(s: string, k: nat, n: nat)
    requires k + n <= |s|
    ensures s[k..][..n] == s[k..k + n] && s[..k] + s[k..][..n] == s[..k + n] && s[k..][n..] == s[k + n..]
  {
  }

  class Relay {
    var input: string
    var output: string
    var bytes: nat
    const noWrite: bool

    /** What the receiver gets of `s`. */
    function Sent(s: string): string { if noWrite then "" else s }

    lemma SentTwice(s: string, t: string)
      ensures Sent(s) + Sent(t) == Sent(s + t)
    {
    }

    lemma SentAfter(o: string, s: string, t: string)
      ensures o + Sent(s) + Sent(t) == o + Sent(s + t)
    {
      SentTwice(s, t);
    }

    lemma SentNothing()
      ensures Sent("") == "" && output + Sent("") == output
    {
    }

    /** `drain_eol` */
    method Drain()
      modifies this`input
      ensures input == Drained(old(input))
    {
      while input != ""
        invariant Drained(input) == Drained(old(input))
        decreases |input|
      {
        var c := input[0];
        input := input[1..];
        if c == '\n' { return; }
      }
    }

    /** `get_line`; nothing is returned if a read fails. */
    method ReadLine(cap: nat) returns (r: Option<Read>)
      modifies this`input
      ensures r.Some? ==> (r.value, input) == GetLine(old(input), cap)
    {
      hide *;
      ghost var s := input;
      var buf, i, seenCr := "", 0, false;
      ScanNone(s);
      while i < cap
        invariant 0 <= i <= cap && i <= |s| && input == s[i..] && Scanned(s, i, buf, seenCr)
      {
        var fault: bool := *;
        if fault { return None; }
        if input == "" {
          ScanEnd(s, i, buf, seenCr, cap);
          return Some(if i == 0 then Eof else Line(buf));
        }
        var c := input[0];
        input := input[1..];
        if seenCr || (!Plain(c) && c != '\r') {
          ScanStop(s, i, buf, seenCr, cap);
          if c == '\n' { return Some(Line(buf)); }
          Drain();
          return Some(BadData);
        }
        ScanNext(s, i, buf);
        if Plain(c) { buf := buf + [c]; } else { seenCr := true; }
        i := i + 1;
      }
      ScanFull(s, i, buf, seenCr);
      Drain();
      return Some(TooLong);
    }

    /** Write a text, which may fail. */
    method Write(s: string) returns (ok: bool)
      modifies this`output
      ensures output == old(output) + if ok then Sent(s) else ""
    {
      if noWrite { return true; }
      var fault: bool := *;
      if fault { return false; }
      output := output + s;
      return true;
    }

    /** `copy_bin`: `k` characters have been passed on. */
    method CopyBin(cont: nat) returns (st: CopyStatus, ghost k: nat)
      modifies this
      ensures k <= cont && k <= |old(input)| && output == old(output) + Sent(old(input)[..k])
      ensures !st.Fault? ==> input == old(input)[k..] && bytes == old(bytes) + k
      ensures st.Complete? ==> k == cont
      ensures st.Truncated? ==> k == |old(input)| < cont
    {
      var left := cont;
      ghost var s := input;
      k := 0;
      SentNothing();
      hide *;
      while left > 0
        invariant left == cont - k && 0 <= k <= cont && k <= |s| && input == s[k..]
        invariant output == old(output) + Sent(s[..k]) && bytes == old(bytes) + k
      {
        var fault: bool := *;
        if fault { return Fault, k; }
        if input == "" { return Truncated, k; }
        var res: nat :| 1 <= res <= MAXBUF && res <= left && res <= |input| by {
          assert 1 <= MAXBUF && 1 <= left && 1 <= |input|;
        }
        var buf := input[..res];
        Taken(s, k, res);
        input := input[res..];
        var ok := Write(buf);
        if !ok { return Fault, k; }
        SentAfter(old(output), s[..k], buf);
        left, bytes, k := left - res, bytes + res, k + res;
      }
      var flushed: bool := *;
      st := if noWrite || flushed then Complete else Fault;
    }

    /** One turn of the first loop of `copy_chunks`; `out`, `data` and `lines` are what it has passed on. */
    method CopyChunk(tot: int, max: nat, cap: nat)
      returns (t: Turn, ghost out: string, ghost data: string, ghost lines: seq<string>)
      modifies this
      ensures output == old(output) + Sent(out)
      ensures t != Stop(Internal) ==> bytes == old(bytes) + |data|
      ensures t.Again? ==> |input| < |old(input)|
      ensures Turned(t, Copy(old(input), tot, max, cap), out, data, lines, input, max, cap)
    {
      hide *;
      ghost var s := input;
      out, data, lines := "", "", [];
      SentNothing();
      var r := ReadLine(cap);
      HeaderStops(s, tot, max, cap, input);
      if r.None? { return Stop(Internal), out, data, lines; }
      if !r.value.Line? { return Stop(BadRequest), out, data, lines; }
      var h := r.value.line;
      var size := GetContentLength(h, true);
      if size.None? { return Stop(BadRequest), out, data, lines; }
      var n := size.value;
      ghost var rest := input;
      CopyIs(s, tot, max, cap, h, rest, n);
      var ok := Write(Ended(h));
      if !ok { return Stop(Internal), out, data, lines; }
      t, out, data := CopyChunkData(s, n, Wrapped(tot + n), max, cap);
      ghost var c := CopyData(s, rest, n, Wrapped(tot + n), max, cap);
      SentAfter(old(output), Ended(h), out);
      ChunkTurn(t, h, out, data, c, input, max, cap);
      out, lines := Ended(h) + out, [h];
    }

    /** The rest of that turn, once the header has been passed on. */
    method CopyChunkData(ghost s: string, n: nat, tot: int, max: nat, cap: nat)
      returns (t: Turn, ghost out: string, ghost data: string)
      requires |input| < |s|
      modifies this
      ensures output == old(output) + Sent(out)
      ensures t != Stop(Internal) ==> bytes == old(bytes) + |data|
      ensures t.Again? ==> |input| < |s|
      ensures Turned(t, CopyData(s, old(input), n, tot, max, cap), out, data, [], input, max, cap)
    {
      hide *;
      ghost var rest := input;
      out, data := "", "";
      if !Passes(tot, max) {
        DataTooLarge(s, rest, n, tot, max, cap);
        SentNothing();
        return Stop(TooLarge), out, data;
      }
      if n == 0 {
        DataLast(s, rest, tot, max, cap);
        SentNothing();
        return Trailers, out, data;
      }
      ghost var k: nat;
      var st: CopyStatus;
      st, k := CopyBin(n);
      out, data := rest[..k], rest[..k];
      DataPart(s, rest, n, tot, max, cap, k, input);
      if st.Fault? { return Stop(Internal), out, data; }
      if st.Truncated? {
        DataShort(s, rest, n, tot, max, cap);
        return Stop(BadRequest), out, data;
      }
      var r := ReadLine(cap);
      DataPart(s, rest, n, tot, max, cap, k, input);
      if r.None? { return Stop(Internal), out, data; }
      DataEnd(s, rest, n, tot, max, cap);
      if r.value != Line("") { return Stop(BadRequest), out, data; }
      var ok := Write(Ended(""));
      if !ok { return Stop(Internal), out, data; }
      SentAfter(old(output), out, Ended(""));
      return Again(tot), out + Ended(""), data;
    }

    /** The last loop of `copy_chunks`. */
    method CopyTrailerLines(cap: nat) returns (st: Status, ghost out: string)
      modifies this`input, this`output
      ensures output == old(output) + Sent(out)
      ensures var c := CopyTrailers(old(input), cap);
              if st == Internal then out <= c.out else st == c.status && out == c.out && input == c.rest
    {
      hide GetLine, CopyTrailers, Ended;
      ghost var s, lines: seq<string> := input, [];
      out := "";
      while true
        invariant output == old(output) + Sent(out)
        invariant CopyTrailers(s, cap) == Prefixed(out, "", lines, CopyTrailers(input, cap))
        decreases |input|
      {
        ghost var before := input;
        var r := ReadLine(cap);
        if r.None? { return Internal, out; }
        TrailerTurn(before, cap);
        if !r.value.Line? { return BadRequest, out; }
        var l := r.value.line;
        PrefixedTwice(out, "", lines, Ended(l), "", [l], if l == "" then Stopped(Ok, input) else CopyTrailers(input, cap));
        var ok := Write(Ended(l));
        if !ok { return Internal, out; }
        SentTwice(out, Ended(l));
        out, lines := out + Ended(l), lines + [l];
        if l == "" { break; }
      }
      var flushed: bool := *;
      st := if noWrite || flushed then Ok else Internal;
    }

    /** The first loop of `copy_chunks`. */
    method CopyAllChunks(max: nat, cap: nat)
      returns (t: Turn, ghost out: string, ghost data: string, ghost lines: seq<string>)
      modifies this
      ensures output == old(output) + Sent(out) && (t != Stop(Internal) ==> bytes == old(bytes) + |data|)
      ensures !t.Again? && Turned(t, Copy(old(input), 0, max, cap), out, data, lines, input, max, cap)
    {
      hide Copy, CopyTrailers, Turned;
      ghost var whole := Copy(input, 0, max, cap);
      out, data, lines := "", "", [];
      t := Again(0);
      FirstTurn(input, max, cap);
      while t.Again?
        invariant output == old(output) + Sent(out) && (t != Stop(Internal) ==> bytes == old(bytes) + |data|)
        invariant Turned(t, whole, out, data, lines, input, max, cap)
        decreases t.Again?, |input|
      {
        ghost var o, d, l, c := out, data, lines, Copy(input, t.tot, max, cap);
        TurnedAgain(t.tot, whole, o, d, l, input, max, cap);
        t, out, data, lines := CopyChunk(t.tot, max, cap);
        NextTurn(t, c, o, d, l, out, data, lines, input, max, cap);
        SentTwice(o, out);
        out, data, lines := o + out, d + data, l + lines;
        hide Prefixed, Sent;
      }
    }

    /** `copy_chunks` writes what the relay of its input comes to, counts its body and leaves the rest of the
        input; if a read or a write fails, it has written a part of that. */
    method CopyChunks(max: nat, cap: nat) returns (st: Status)
      modifies this
      ensures var c := Copy(old(input), 0, max, cap);
              if st == Internal then old(output) <= output <= old(output) + Sent(c.out)
              else st == c.status && output == old(output) + Sent(c.out) && input == c.rest && bytes == old(bytes) + |c.body|
    {
      hide Copy, CopyTrailers, GetLine, ChunkSize;
      ghost var out, data, lines, more: string;
      var t: Turn;
      t, out, data, lines := CopyAllChunks(max, cap);
      ghost var whole, c := Copy(old(input), 0, max, cap), CopyTrailers(input, cap);
      if t.Stop? {
        PrefixOf(old(output), Sent(out), Sent(whole.out));
        return t.status;
      }
      TrailersBodiless(input, cap);
      st, more := CopyTrailerLines(cap);
      SentTwice(out, more);
      if st == Internal { PrefixOf(old(output), Sent(out + more), Sent(out + c.out)); }
    }
  }

  lemma FirstTurn(s: string, max: nat, cap: nat)
    ensures Turned(Again(0), Copy(s, 0, max, cap), "", "", [], s, max, cap)
  {
    hide Copy;
    var c := Copy(s, 0, max, cap);
    assert "" + c.out == c.out && "" + c.body == c.body && [] + c.lines == c.lines;
  }

  lemma TurnedAgain(u: int, whole: Copied, o: string, d: string, l: seq<string>, input: string, max: nat, cap: nat)
    requires Turned(Again(u), whole, o, d, l, input, max, cap)
    ensures whole == Prefixed(o, d, l, Copy(input, u, max, cap))
  {
  }

  /** How a turn stands to the relay `c` that it is the start of. */
  ghost predicate Turned(t: Turn, c: Copied, out: string, data: string, lines: seq<string>, input: string, max: nat, cap: nat) {
    match t
    case Again(u) => c == Prefixed(out, data, lines, Copy(input, u, max, cap))
    case Trailers => c == Prefixed(out, data, lines, CopyTrailers(input, cap))
    case Stop(st) => if st == Internal then out <= c.out else c == Prefixed(out, data, lines, Stopped(st, input))
  }

  // The ways in which the part of a chunk after its header may end.

  lemma HeaderStops(s: string, tot: int, max: nat, cap: nat, input: string)
    ensures Turned(Stop(Internal), Copy(s, tot, max, cap), "", "", [], input, max, cap)
    ensures var (l, rest) := GetLine(s, cap);
            !l.Line? || ChunkSize(l.line).None? ==> Turned(Stop(BadRequest), Copy(s, tot, max, cap), "", "", [], rest, max, cap)
  {
    hide GetLine, ChunkSize, CopyData;
  }

  lemma DataTooLarge(s: string, rest: string, n: nat, tot: int, max: nat, cap: nat)
    requires |rest| < |s| && !Passes(tot, max)
    ensures Turned(Stop(TooLarge), CopyData(s, rest, n, tot, max, cap), "", "", [], rest, max, cap)
  {
  }

  lemma DataLast(s: string, rest: string, tot: int, max: nat, cap: nat)
    requires |rest| < |s| && Passes(tot, max)
    ensures Turned(Trailers, CopyData(s, rest, 0, tot, max, cap), "", "", [], rest, max, cap)
  {
    hide GetLine, CopyTrailers;
    var c := CopyTrailers(rest, cap);
    assert "" + c.out == c.out && "" + c.body == c.body && [] + c.lines == c.lines;
  }

  lemma DataPart(s: string, rest: string, n: nat, tot: int, max: nat, cap: nat, k: nat, input: string)
    requires |rest| < |s| && Passes(tot, max) && n > 0 && k <= n && k <= |rest|
    ensures Turned(Stop(Internal), CopyData(s, rest, n, tot, max, cap), rest[..k], rest[..k], [], input, max, cap)
  {
    hide GetLine, CopyTrailers, Copy, Ended;
  }

  lemma DataShort(s: string, rest: string, n: nat, tot: int, max: nat, cap: nat)
    requires |rest| < |s| && Passes(tot, max) && |rest| < n
    ensures rest[..|rest|] == rest && rest[|rest|..] == ""
    ensures Turned(Stop(BadRequest), CopyData(s, rest, n, tot, max, cap), rest, rest, [], "", max, cap)
  {
    hide GetLine, CopyTrailers, Copy;
  }

  lemma DataEnd(s: string, rest: string, n: nat, tot: int, max: nat, cap: nat)
    requires |rest| < |s| && Passes(tot, max) && 0 < n <= |rest|
    ensures var (l, r) := GetLine(rest[n..], cap);
            var c := CopyData(s, rest, n, tot, max, cap);
            if l != Line("") then Turned(Stop(BadRequest), c, rest[..n], rest[..n], [], r, max, cap)
            else Turned(Again(tot), c, rest[..n] + Ended(""), rest[..n], [], r, max, cap)
    ensures GetLine(rest[n..], cap).0.Line? ==> |GetLine(rest[n..], cap).1| < |s|
  {
    hide GetLine, CopyTrailers, Copy, Ended, ChunkSize;
    var (l, r) := GetLine(rest[n..], cap);
    if l == Line("") {
      PrefixedTwice(rest[..n], rest[..n], [], Ended(""), "", [], Copy(r, tot, max, cap));
      var none: seq<string> := [];
      assert rest[..n] + "" == rest[..n] && none + none == none;
    }
  }

  lemma ChunkTurn(t: Turn, h: string, out: string, data: string, c: Copied, input: string, max: nat, cap: nat)
    requires Turned(t, c, out, data, [], input, max, cap)
    ensures Turned(t, Prefixed(Ended(h), "", [h], c), Ended(h) + out, data, [h], input, max, cap)
  {
    hide Copy, CopyTrailers, Ended;
    NextTurn(t, c, Ended(h), "", [h], out, data, [], input, max, cap);
    assert "" + data == data && [h] + [] == [h];
  }

  lemma NextTurn(t: Turn, c: Copied, o: string, d: string, l: seq<string>, out: string, data: string, lines: seq<string>,
                 input: string, max: nat, cap: nat)
    requires Turned(t, c, out, data, lines, input, max, cap)
    ensures Turned(t, Prefixed(o, d, l, c), o + out, d + data, l + lines, input, max, cap)
  {
    hide Copy, CopyTrailers;
    match t
    case Again(u) => PrefixedTwice(o, d, l, out, data, lines, Copy(input, u, max, cap));
    case Trailers => PrefixedTwice(o, d, l, out, data, lines, CopyTrailers(input, cap));
    case Stop(st) => PrefixedTwice(o, d, l, out, data, lines, Stopped(st, input));
  }

  lemma PrefixOf(a: string, b: string, c: string)
    ensures b <= c ==> a <= a + b <= a + c
  {
  }

  lemma TrailerTurn(s: string, cap: nat)
    ensures var (l, rest) := GetLine(s, cap);
            CopyTrailers(s, cap) ==
              if !l.Line? then Stopped(BadRequest, rest)
              else Prefixed(Ended(l.line), "", [l.line], if l.line == "" then Stopped(Ok, rest) else CopyTrailers(rest, cap))
  {
    hide GetLine;
  }
}
