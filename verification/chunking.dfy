/** The stream parser does not see where the network cut the text. */
module Chunking {
  import opened Options
  import opened Text
  import opened Folds
  import opened SseStream

  lemma FindInPrefix(a: string, b: string)
    requires Find(a, SEPARATOR).Some?
    ensures Find(a + b, SEPARATOR) == Find(a, SEPARATOR)
  {
    var i := Find(a, SEPARATOR).value;
    assert (a + b)[i..i + 2] == a[i..i + 2];
    forall j | 0 <= j < i
      ensures !OccursAt(a + b, SEPARATOR, j)
    {
      assert !OccursAt(a, SEPARATOR, j);
      assert (a + b)[j..j + 2] == a[j..j + 2];
    }
    FindIs(a + b, SEPARATOR, i);
  }

  /** What `a` leaves over is all that `b` needs, wherever the cut is, inside a separator too. */
  lemma {:induction false} DrainConcat(a: string, b: string)
    ensures var (events, rest) := Drain(a); var (more, end) := Drain(rest + b);
      Drain(a + b) == (events + more, end)
    decreases |a|
  {
    match Find(a, SEPARATOR)
    case None =>
      assert [] + Drain(a + b).0 == Drain(a + b).0;
    case Some(i) =>
      FindInPrefix(a, b);
      assert (a + b)[i + 2..] == a[i + 2..] + b && (a + b)[..i] == a[..i];
      DrainConcat(a[i + 2..], b);
      var (events, rest) := Drain(a[i + 2..]);
      var more := Drain(rest + b).0;
      assert [a[..i]] + (events + more) == ([a[..i]] + events) + more;
  }

  /** No complete event is waiting in the buffer, which is so at the start and after every chunk. */
  predicate Settled(st: ParserState) {
    Find(st.buffer, SEPARATOR).None?
  }

  lemma {:induction false} DrainSettles(buffer: string)
    ensures Find(Drain(buffer).1, SEPARATOR).None?
    decreases |buffer|
  {
    match Find(buffer, SEPARATOR)
    case None =>
    case Some(i) => DrainSettles(buffer[i + 2..]);
  }

  lemma FeedTwice(json: string -> Payload, st: ParserState, a: string, b: string)
    ensures var (m, out) := Feed(json, st, a); var (end, more) := Feed(json, m, b);
      Feed(json, st, a + b) == (end, out + more) && Settled(m)
  {
    DrainSettles(st.buffer + a);
    assert st.buffer + (a + b) == (st.buffer + a) + b;
    DrainConcat(st.buffer + a, b);
    var (events, rest) := Drain(st.buffer + a);
    FoldConcat(EventStep(json), st.calls, events, Drain(rest + b).0);
  }

  function Concat(texts: seq<string>): string {
    if texts == [] then "" else texts[0] + Concat(texts[1..])
  }

  function AsChunks(texts: seq<string>): seq<Chunk> {
    seq(|texts|, i requires 0 <= i < |texts| => Data(texts[i]))
  }

  lemma {:induction false} ChunksAreOneText(json: string -> Payload, st: ParserState, texts: seq<string>)
    requires Settled(st)
    ensures Fold(ChunkStep(json), st, AsChunks(texts)) == Feed(json, st, Concat(texts))
    decreases texts
  {
    if texts == [] {
      assert st.buffer + "" == st.buffer;
    } else {
      FeedTwice(json, st, texts[0], Concat(texts[1..]));
      ChunksAreOneText(json, Feed(json, st, texts[0]).0, texts[1..]);
      assert AsChunks(texts)[1..] == AsChunks(texts[1..]);
    }
  }

  /** Two ways to cut one text give the same stream chunks, in the same order, and the same parser state. */
  lemma CutsDoNotMatter(json: string -> Payload, a: seq<string>, b: seq<string>)
    requires Concat(a) == Concat(b)
    ensures var start := ParserState("", NO_CALLS);
      Fold(ChunkStep(json), start, AsChunks(a)) == Fold(ChunkStep(json), start, AsChunks(b))
  {
    var start := ParserState("", NO_CALLS);
    ChunksAreOneText(json, start, a);
    ChunksAreOneText(json, start, b);
  }

  /** An event ends at the first blank line after its start. */
  ghost predicate EndsAtFirstSeparator(event: string) {
    Find(event + SEPARATOR, SEPARATOR) == Some(|event|)
  }

  /** The events are the text cut at its separators, and nothing of the text is lost. */
  lemma {:induction false} DrainIsTheTextCut(text: string)
    ensures var (events, rest) := Drain(text);
      && text == Join(events + [rest], SEPARATOR)
      && Find(rest, SEPARATOR).None?
      && forall e :: e in events ==> EndsAtFirstSeparator(e)
    decreases |text|
  {
    match Find(text, SEPARATOR)
    case None =>
    case Some(i) =>
      DrainIsTheTextCut(text[i + 2..]);
      var (events, rest) := Drain(text[i + 2..]);
      assert ([text[..i]] + events + [rest])[1..] == events + [rest];
      assert text == text[..i] + SEPARATOR + text[i + 2..];
      FirstEvent(text, i);
  }

  lemma FirstEvent(text: string, i: nat)
    requires Find(text, SEPARATOR) == Some(i)
    ensures EndsAtFirstSeparator(text[..i])
  {
    var s := text[..i] + SEPARATOR;
    assert s == text[..i + 2] && s[i..i + 2] == SEPARATOR;
    forall j | 0 <= j < i
      ensures !OccursAt(s, SEPARATOR, j)
    {
      assert !OccursAt(text, SEPARATOR, j);
      assert s[j..j + 2] == text[j..j + 2];
    }
    FindIs(s, SEPARATOR, i);
  }
}
