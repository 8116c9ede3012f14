/** Line framing of an event stream: the subset of section 9.2 of the WHATWG HTML Standard that the usage scanners
    read. Splitting a stream into packets is proved not to matter, for any fold over its lines. */
module Sse {
  import opened Wrappers

  /** The white space that JavaScript's trim removes. */
  predicate Space(c: char) {
    || '\t' <= c <= '\r'
    || c in {' ', '\U{00A0}', '\U{1680}', '\U{2028}', '\U{2029}', '\U{202F}', '\U{205F}', '\U{3000}', '\U{FEFF}'}
    || '\U{2000}' <= c <= '\U{200A}'
  }

  function TrimEnd(s: string): string {
    if s != "" && Space(s[|s| - 1]) then TrimEnd(s[..|s| - 1]) else s
  }

  function TrimStart(s: string): string {
    if s != "" && Space(s[0]) then TrimStart(s[1..]) else s
  }

  function Trim(s: string): string {
    TrimStart(TrimEnd(s))
  }

  /** The payload of a data line, if it has one that is not the end marker. */
  function Payload(raw: string): Option<string> {
    var line := TrimEnd(raw);
    if !("data:" <= line) then None
    else
      var payload := Trim(line[5..]);
      if payload == "" || payload == "[DONE]" then None else Some(payload)
  }

  /** Where the first newline is, or the length of the text. */
  function LineEnd(s: string): (n: nat)
    ensures n <= |s|
    ensures forall i :: 0 <= i < n ==> s[i] != '\n'
    ensures n < |s| ==> s[n] == '\n'
  {
    if s == "" || s[0] == '\n' then 0 else 1 + LineEnd(s[1..])
  }

  /** The complete lines of a text, and what follows its last newline. */
  function Lines(s: string): seq<string>
    decreases |s|
  {
    var n := LineEnd(s);
    if n == |s| then [] else [s[..n]] + Lines(s[n + 1..])
  }

  function Remainder(s: string): string
    decreases |s|
  {
    var n := LineEnd(s);
    if n == |s| then s else Remainder(s[n + 1..])
  }

  function Fold<S>(absorb: (S, string) -> S, s: S, lines: seq<string>): S {
    if lines == [] then s else Fold(absorb, absorb(s, lines[0]), lines[1..])
  }

  lemma {:induction false} FoldAppend<S>(absorb: (S, string) -> S, s: S, xs: seq<string>, ys: seq<string>)
    ensures Fold(absorb, s, xs + ys) == Fold(absorb, Fold(absorb, s, xs), ys)
    decreases |xs|
  {
    if xs == [] {
      assert xs + ys == ys;
    } else {
      FoldAppend(absorb, absorb(s, xs[0]), xs[1..], ys);
      assert (xs + ys)[1..] == xs[1..] + ys;
    }
  }

  /** The first complete line of a text is absorbed first, and the rest follows. */
  lemma FoldFirstLine<S>(absorb: (S, string) -> S, s: S, text: string)
    requires LineEnd(text) < |text|
    ensures var n := LineEnd(text);
            && Fold(absorb, s, Lines(text)) == Fold(absorb, absorb(s, text[..n]), Lines(text[n + 1..]))
            && Remainder(text) == Remainder(text[n + 1..])
  {
    hide LineEnd, Fold;
    var n := LineEnd(text);
    FoldOne(absorb, s, text[..n], Lines(text[n + 1..]));
  }

  lemma FoldOne<S>(absorb: (S, string) -> S, s: S, line: string, rest: seq<string>)
    ensures Fold(absorb, s, [line] + rest) == Fold(absorb, absorb(s, line), rest)
  {
    assert ([line] + rest)[1..] == rest;
  }

  lemma FoldNothing<S>(absorb: (S, string) -> S, s: S)
    ensures Fold(absorb, s, []) == s
  {
  }

  lemma NoLineLeft(text: string)
    requires LineEnd(text) == |text|
    ensures Lines(text) == [] && Remainder(text) == text
  {
  }

  /** A scanner between two packets: the buffered partial line and what it has learnt. */
  datatype Fed<S> = Fed(buf: string, s: S)

  /** Feeding one packet: every line that is now complete is absorbed, the rest is buffered. */
  function Feed<S>(absorb: (S, string) -> S, f: Fed<S>, chunk: string): Fed<S> {
    Fed(Remainder(f.buf + chunk), Fold(absorb, f.s, Lines(f.buf + chunk)))
  }

  function FeedAll<S>(absorb: (S, string) -> S, f: Fed<S>, chunks: seq<string>): Fed<S>
    decreases |chunks|
  {
    if chunks == [] then f else FeedAll(absorb, Feed(absorb, f, chunks[0]), chunks[1..])
  }

  function Concat(chunks: seq<string>): string {
    if chunks == [] then "" else chunks[0] + Concat(chunks[1..])
  }

  lemma LineEndSkip(s: string, t: string)
    ensures LineEnd(s) < |s| ==> LineEnd(s + t) == LineEnd(s)
    ensures LineEnd(s) == |s| && LineEnd(t) < |t| ==> LineEnd(s + t) == |s| + LineEnd(t)
    ensures LineEnd(s) == |s| && LineEnd(t) == |t| ==> LineEnd(s + t) == |s + t|
  {
    assert forall i :: 0 <= i < |s| ==> (s + t)[i] == s[i];
    assert forall i :: 0 <= i < |t| ==> (s + t)[|s| + i] == t[i];
    var m := if LineEnd(s) < |s| then LineEnd(s) else |s| + LineEnd(t);
    assert m < |s + t| ==> (s + t)[m] == '\n';
    assert forall i :: 0 <= i < m ==> (s + t)[i] != '\n';
  }

  /** Splitting a text anywhere: its lines are those of the first part, then those of what the first part left over
      followed by the second part. */
  lemma {:induction false} SplitLines(a: string, b: string)
    ensures Lines(a + b) == Lines(a) + Lines(Remainder(a) + b)
    ensures Remainder(a + b) == Remainder(Remainder(a) + b)
    decreases |a|
  {
    hide LineEnd;
    var n := LineEnd(a);
    if n < |a| {
      LineEndSkip(a, b);
      SplitLines(a[n + 1..], b);
      assert (a + b)[n + 1..] == a[n + 1..] + b && (a + b)[..n] == a[..n];
      assert Lines(a + b) == [a[..n]] + Lines(a[n + 1..] + b);
    }
  }

  lemma {:induction false} RemainderHasNoLine(s: string)
    ensures Lines(Remainder(s)) == [] && Remainder(Remainder(s)) == Remainder(s)
    decreases |s|
  {
    if LineEnd(s) < |s| {
      RemainderHasNoLine(s[LineEnd(s) + 1..]);
    }
  }

  /** A buffer never holds a complete line. */
  ghost predicate Settled<S>(f: Fed<S>) {
    Lines(f.buf) == [] && Remainder(f.buf) == f.buf
  }

  lemma FeedTwice<S>(absorb: (S, string) -> S, f: Fed<S>, a: string, b: string)
    ensures Feed(absorb, Feed(absorb, f, a), b) == Feed(absorb, f, a + b)
    ensures Settled(Feed(absorb, f, a))
  {
    var text := f.buf + a;
    SplitLines(text, b);
    assert f.buf + (a + b) == text + b;
    FoldAppend(absorb, f.s, Lines(text), Lines(Remainder(text) + b));
    RemainderHasNoLine(text);
  }

  /** Chunking invariance: any split of a stream into packets leaves the scanner exactly where feeding the whole
      stream at once would have left it. */
  lemma {:induction false} ChunkingInvariance<S>(absorb: (S, string) -> S, f: Fed<S>, chunks: seq<string>)
    requires Settled(f)
    ensures FeedAll(absorb, f, chunks) == Feed(absorb, f, Concat(chunks))
    ensures Settled(FeedAll(absorb, f, chunks))
    decreases |chunks|
  {
    if chunks == [] {
      assert f.buf + "" == f.buf;
    } else {
      FeedTwice(absorb, f, chunks[0], Concat(chunks[1..]));
      ChunkingInvariance(absorb, Feed(absorb, f, chunks[0]), chunks[1..]);
    }
  }

  /** From an empty scanner: the state is the fold over the complete lines of the whole stream. */
  lemma StreamIsFold<S>(absorb: (S, string) -> S, s: S, chunks: seq<string>)
    ensures FeedAll(absorb, Fed("", s), chunks) ==
            Fed(Remainder(Concat(chunks)), Fold(absorb, s, Lines(Concat(chunks))))
  {
    ChunkingInvariance(absorb, Fed("", s), chunks);
    assert "" + Concat(chunks) == Concat(chunks);
  }

  /** Every line a scanner sees is a line of the text, newline-free, in order: joined back with newlines and the
      remainder they are the text. */
  function Join(lines: seq<string>, rest: string): string {
    if lines == [] then rest else lines[0] + "\n" + Join(lines[1..], rest)
  }

  lemma {:induction false} LinesRoundTrip(s: string)
    ensures Join(Lines(s), Remainder(s)) == s
    ensures forall line :: line in Lines(s) ==> '\n' !in line
    decreases |s|
  {
    hide LineEnd;
    var n := LineEnd(s);
    if n < |s| {
      LinesRoundTrip(s[n + 1..]);
      assert Lines(s)[0] == s[..n] && Lines(s)[1..] == Lines(s[n + 1..]);
      assert s == s[..n] + [s[n]] + s[n + 1..];
    }
  }
}
