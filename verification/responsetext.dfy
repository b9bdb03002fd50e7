/** From the bytes of one model response to the text and the reasoning that the turn collects. */
module ResponseText {
  import opened Options
  import opened Folds
  import opened SseStream
  import opened Chunking
  import opened Turn
  import opened Response

  /** What one output adds to the text, and to the reasoning. */
  function Spoken(o: Output): string {
    if o.Ok? && o.chunk.Delta? then o.chunk.text else ""
  }

  function Thought(o: Output): string {
    if o.Ok? && o.chunk.ReasoningDelta? then o.chunk.text else ""
  }

  function ConcatMap<X>(g: X -> string, xs: seq<X>): string {
    if xs == [] then "" else g(xs[0]) + ConcatMap(g, xs[1..])
  }

  lemma {:induction false} ConcatMapConcat<X>(g: X -> string, a: seq<X>, b: seq<X>)
    ensures ConcatMap(g, a + b) == ConcatMap(g, a) + ConcatMap(g, b)
  {
    if a == [] {
      assert a + b == b;
    } else {
      assert (a + b)[1..] == a[1..] + b;
      ConcatMapConcat(g, a[1..], b);
    }
  }

  lemma ConcatMapOne<X>(g: X -> string, x: X)
    ensures ConcatMap(g, [x]) == g(x)
  {
    assert [x][1..] == [] && g(x) + "" == g(x);
  }

  /** A step says the same whatever the state it is taken in. */
  ghost predicate Says<S(!new), X(!new)>(step: (S, X) -> (S, seq<Output>), pick: Output -> string, g: X -> string) {
    forall s, x :: ConcatMap(pick, step(s, x).1) == g(x)
  }

  lemma {:induction false} FoldSays<S(!new), X(!new)>(step: (S, X) -> (S, seq<Output>), pick: Output -> string,
      g: X -> string, s: S, xs: seq<X>)
    requires Says(step, pick, g)
    ensures ConcatMap(pick, Fold(step, s, xs).1) == ConcatMap(g, xs)
    decreases |xs|
  {
    if xs != [] {
      var (s', out) := step(s, xs[0]);
      FoldSays(step, pick, g, s', xs[1..]);
      ConcatMapConcat(pick, out, Fold(step, s', xs[1..]).1);
      assert ConcatMap(pick, step(s, xs[0]).1) == g(xs[0]);
    }
  }

  /** Reads nothing from tool calls, ends and errors. */
  ghost predicate TextOnly(pick: Output -> string) {
    forall o: Output :: o.Err? || o.chunk.ToolCallDelta? || o.chunk.Done? ==> pick(o) == ""
  }

  function OfFragment(): Fragment -> string {
    (f: Fragment) => ""
  }

  lemma FragmentsSayNothing(pick: Output -> string)
    requires TextOnly(pick)
    ensures Says(FragmentStep, pick, OfFragment())
  {
    forall s: Calls, f: Fragment ensures ConcatMap(pick, FragmentStep(s, f).1) == "" {
      var out := FragmentStep(s, f).1;
      if out != [] { ConcatMapOne(pick, out[0]); }
    }
  }

  lemma {:induction false} NothingConcat(fs: seq<Fragment>)
    ensures ConcatMap(OfFragment(), fs) == ""
  {
    if fs != [] { NothingConcat(fs[1..]); }
  }

  function OfChoice(pick: Output -> string): Choice -> string {
    (c: Choice) => ConcatMap(pick, TextOutputs(c))
  }

  lemma ChoicesSay(pick: Output -> string, usage: Option<Usage>)
    requires TextOnly(pick)
    ensures Says(ChoiceStep(usage), pick, OfChoice(pick))
  {
    FragmentsSayNothing(pick);
    forall s: Calls, c: Choice ensures ConcatMap(pick, ChoiceStep(usage)(s, c).1) == ConcatMap(pick, TextOutputs(c)) {
      var out, end := Fold(FragmentStep, s, Fragments(c)).1, FinishOutputs(c, usage);
      FoldSays(FragmentStep, pick, OfFragment(), s, Fragments(c));
      NothingConcat(Fragments(c));
      if end != [] { ConcatMapOne(pick, end[0]); }
      ConcatMapConcat(pick, TextOutputs(c) + out, end);
      ConcatMapConcat(pick, TextOutputs(c), out);
    }
  }

  function OfLine(json: string -> Payload, pick: Output -> string): string -> string {
    (line: string) =>
      match LineData(line)
      case None => ""
      case Some(data) => if data ==
        "[DONE]" || !json(data).Parsed? then "" else ConcatMap(OfChoice(pick), json(data).choices)
  }

  lemma LinesSay(json: string -> Payload, pick: Output -> string)
    requires TextOnly(pick)
    ensures Says(LineStep(json), pick, OfLine(json, pick))
  {
    forall s: Calls, line: string ensures ConcatMap(pick, LineStep(json)(s, line).1) == OfLine(json, pick)(line) {
      match LineData(line)
      case None =>
      case Some(data) =>
        ConcatMapOne(pick, Ok(Done(NO_USAGE)));
        if json(data).ApiError? { ConcatMapOne(pick, Err("API error: " + json(data).message)); }
        if json(data).Parsed? {
          ChoicesSay(pick, json(data).usage);
          FoldSays(ChoiceStep(json(data).usage), pick, OfChoice(pick), s, json(data).choices);
        }
    }
  }

  function OfEvent(json: string -> Payload, pick: Output -> string): string -> string {
    (event: string) => ConcatMap(OfLine(json, pick), Lines(event))
  }

  lemma EventsSay(json: string -> Payload, pick: Output -> string)
    requires TextOnly(pick)
    ensures Says(EventStep(json), pick, OfEvent(json, pick))
  {
    LinesSay(json, pick);
    forall s: Calls, event: string ensures ConcatMap(pick, EventStep(json)(s, event).1) == OfEvent(json, pick)(event) {
      FoldSays(LineStep(json), pick, OfLine(json, pick), s, Lines(event));
    }
  }

  lemma {:induction false} TextOfItems(outputs: seq<Output>)
    ensures TextOf(ItemsOf(outputs)) == ConcatMap(Spoken, outputs)
    ensures ReasoningOf(ItemsOf(outputs)) == ConcatMap(Thought, outputs)
  {
    if outputs != [] {
      var before, last := outputs[..|outputs| - 1], outputs[|outputs| - 1];
      TextOfItems(before);
      assert ItemsOf(outputs)[..|outputs| - 1] == ItemsOf(before);
      assert outputs == before + [last];
      ConcatMapConcat(Spoken, before, [last]);
      ConcatMapConcat(Thought, before, [last]);
      ConcatMapOne(Spoken, last);
      ConcatMapOne(Thought, last);
    }
  }

  /** The contents, and the reasoning contents, of all choices of a response text, in order. */
  function ContentOf(json: string -> Payload, text: string): string {
    ConcatMap(OfEvent(json, Spoken), Drain(text).0)
  }

  function ReasoningContentOf(json: string -> Payload, text: string): string {
    ConcatMap(OfEvent(json, Thought), Drain(text).0)
  }

  lemma FeedSays(json: string -> Payload, text: string, pick: Output -> string)
    requires TextOnly(pick)
    ensures ConcatMap(pick, Feed(json, ParserState("", NO_CALLS), text).1) ==
      ConcatMap(OfEvent(json, pick), Drain(text).0)
  {
    assert "" + text == text;
    EventsSay(json, pick);
    FoldSays(EventStep(json), pick, OfEvent(json, pick), NO_CALLS, Drain(text).0);
  }

  lemma OutputsAreFed(json: string -> Payload, texts: seq<string>)
    ensures ItemsOfResponse(json, texts) == ItemsOf(Feed(json, ParserState("", NO_CALLS), Concat(texts)).1)
  {
    ChunksAreOneText(json, ParserState("", NO_CALLS), texts);
  }

  /** A response in any pieces gives the turn exactly the contents of its choices. */
  lemma TurnGetsTheText(json: string -> Payload, texts: seq<string>)
    ensures TextOf(ItemsOfResponse(json, texts)) == ContentOf(json, Concat(texts))
    ensures ReasoningOf(ItemsOfResponse(json, texts)) == ReasoningContentOf(json, Concat(texts))
  {
    hide Feed, TextOf, ReasoningOf, ItemsOf, ItemsOfResponse, Drain, Concat, ConcatMap;
    OutputsAreFed(json, texts);
    TextOfItems(Feed(json, ParserState("", NO_CALLS), Concat(texts)).1);
    FeedSays(json, Concat(texts), Spoken);
    FeedSays(json, Concat(texts), Thought);
  }

  /** What a choice adds is its content, and its reasoning content. */
  lemma ChoiceAddsItsContent(c: Choice)
    ensures OfChoice(Spoken)(c) == OrEmpty(c.content) && OfChoice(Thought)(c) == OrEmpty(c.reasoning)
  {
    if c.content.Some? { ConcatMapOne(Spoken, Ok(Delta(c.content.value))); }
    if c.reasoning.Some? { ConcatMapOne(Thought, Ok(ReasoningDelta(c.reasoning.value))); }
    var a := if c.content.Some? then [Ok(Delta(c.content.value))] else [];
    var b := if c.reasoning.Some? then [Ok(ReasoningDelta(c.reasoning.value))] else [];
    ConcatMapConcat(Spoken, a, b);
    ConcatMapConcat(Thought, a, b);
    if c.content.Some? { ConcatMapOne(Thought, a[0]); }
    if c.reasoning.Some? { ConcatMapOne(Spoken, b[0]); }
  }
}
