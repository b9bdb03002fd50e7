/** From the text of a response, however it is cut, to the tool calls of the turn. */
module Pipeline {
  import opened Options
  import opened Text
  import opened Folds
  import opened SseStream
  import opened Chunking
  import opened ToolCalls

  /** The tool-call deltas among the outputs. */
  function Deltas(outputs: seq<Output>): seq<Output> {
    if outputs == [] then []
    else (if outputs[0].Ok? && outputs[0].chunk.ToolCallDelta? then [outputs[0]] else []) + Deltas(outputs[1..])
  }

  lemma {:induction false} DeltasConcat(a: seq<Output>, b: seq<Output>)
    ensures Deltas(a + b) == Deltas(a) + Deltas(b)
  {
    if a == [] {
      assert a + b == b;
    } else {
      assert (a + b)[1..] == a[1..] + b;
      DeltasConcat(a[1..], b);
    }
  }

  lemma DeltaOfOne(o: Output)
    ensures Deltas([o]) == if o.Ok? && o.chunk.ToolCallDelta? then [o] else []
  {
  }

  lemma {:induction false} DeltasSuffice(acc: Accumulator, outputs: seq<Output>)
    ensures AccumulateAll(acc, outputs) == AccumulateAll(acc, Deltas(outputs))
  {
    if outputs != [] {
      var before, last := outputs[..|outputs| - 1], outputs[|outputs| - 1];
      DeltasSuffice(acc, before);
      assert outputs == before + [last];
      DeltasConcat(before, [last]);
      DeltaOfOne(last);
      AccumulateLast(acc, before, [last]);
      AccumulateLast(acc, Deltas(before), Deltas([last]));
      assert [last][..0] == [];
    }
  }

  function FlatMap<X, Y>(g: X -> seq<Y>, xs: seq<X>): seq<Y> {
    if xs == [] then [] else g(xs[0]) + FlatMap(g, xs[1..])
  }

  /** A step does to the buffers what its fragments do, and its deltas are theirs. */
  ghost predicate Carries<X(!new)>(step: (Calls, X) -> (Calls, seq<Output>), g: X -> seq<Fragment>) {
    forall s, x :: (step(s, x).0, Deltas(step(s, x).1)) == Fold(FragmentStep, s, g(x))
  }

  lemma {:induction false} FoldCarries<X(!new)>(step: (Calls, X) -> (Calls, seq<Output>), g: X -> seq<Fragment>,
      s: Calls, xs: seq<X>)
    requires Carries(step, g)
    ensures (Fold(step, s, xs).0, Deltas(Fold(step, s, xs).1)) == Fold(FragmentStep, s, FlatMap(g, xs))
    decreases xs
  {
    if xs != [] {
      var (s', out) := step(s, xs[0]);
      FoldCarries(step, g, s', xs[1..]);
      DeltasConcat(out, Fold(step, s', xs[1..]).1);
      FoldConcat(FragmentStep, s, g(xs[0]), FlatMap(g, xs[1..]));
      assert (s', Deltas(out)) == Fold(FragmentStep, s, g(xs[0]));
    }
  }

  lemma FragmentOutputIsDelta(s: Calls, f: Fragment)
    ensures Deltas(FragmentStep(s, f).1) == FragmentStep(s, f).1
  {
    var out := FragmentStep(s, f).1;
    if out != [] { DeltaOfOne(out[0]); }
  }

  /** The parser puts out deltas only where fragments do. */
  lemma {:induction false} FragmentOutputsAreDeltas(s: Calls, fs: seq<Fragment>)
    ensures Deltas(Fold(FragmentStep, s, fs).1) == Fold(FragmentStep, s, fs).1
    decreases fs
  {
    if fs != [] {
      var (s', out) := FragmentStep(s, fs[0]);
      FragmentOutputIsDelta(s, fs[0]);
      hide FragmentStep, Deltas;
      FragmentOutputsAreDeltas(s', fs[1..]);
      DeltasConcat(out, Fold(FragmentStep, s', fs[1..]).1);
    }
  }

  lemma ChoiceCarries(usage: Option<Usage>)
    ensures Carries(ChoiceStep(usage), Fragments)
  {
    forall s: Calls, c: Choice
      ensures (ChoiceStep(usage)(s, c).0, Deltas(ChoiceStep(usage)(s, c).1)) == Fold(FragmentStep, s, Fragments(c))
    {
      var out := Fold(FragmentStep, s, Fragments(c)).1;
      FragmentOutputsAreDeltas(s, Fragments(c));
      DeltasConcat(TextOutputs(c) + out, FinishOutputs(c, usage));
      DeltasConcat(TextOutputs(c), out);
      NoDeltasInText(c);
      DeltaOfOne(Ok(Done(if usage.Some? then usage.value else NO_USAGE)));
      assert [] + out + [] == out;
    }
  }

  lemma NoDeltasInText(c: Choice)
    ensures Deltas(TextOutputs(c)) == []
  {
    DeltasConcat(if c.content.Some? then [Ok(Delta(c.content.value))] else [],
                 if c.reasoning.Some? then [Ok(ReasoningDelta(c.reasoning.value))] else []);
  }

  function LineFragments(json: string -> Payload): string -> seq<Fragment> {
    (line: string) =>
      match LineData(line)
      case None => []
      case Some(data) =>
        if data == "[DONE]" || !json(data).Parsed? then [] else FlatMap(Fragments, json(data).choices)
  }

  lemma LineCarries(json: string -> Payload)
    ensures Carries(LineStep(json), LineFragments(json))
  {
    forall s: Calls, line: string
      ensures (LineStep(json)(s, line).0, Deltas(LineStep(json)(s, line).1)) ==
        Fold(FragmentStep, s, LineFragments(json)(line))
    {
      match LineData(line)
      case None =>
      case Some(data) =>
        DeltaOfOne(Ok(Done(NO_USAGE)));
        if json(data).ApiError? { DeltaOfOne(Err("API error: " + json(data).message)); }
        if data != "[DONE]" && json(data).Parsed? {
          ChoiceCarries(json(data).usage);
          FoldCarries(ChoiceStep(json(data).usage), Fragments, s, json(data).choices);
        }
    }
  }

  function EventFragments(json: string -> Payload): string -> seq<Fragment> {
    (event: string) => FlatMap(LineFragments(json), Lines(event))
  }

  lemma EventCarries(json: string -> Payload)
    ensures Carries(EventStep(json), EventFragments(json))
  {
    LineCarries(json);
    forall s: Calls, event: string
      ensures (EventStep(json)(s, event).0, Deltas(EventStep(json)(s, event).1)) ==
        Fold(FragmentStep, s, EventFragments(json)(event))
    {
      FoldCarries(LineStep(json), LineFragments(json), s, Lines(event));
    }
  }

  /** The tool-call fragments of a response text, in order. */
  function TextFragments(json: string -> Payload, text: string): seq<Fragment> {
    FlatMap(EventFragments(json), Drain(text).0)
  }

  /** What the accumulator holds after a response that arrived in the given pieces. */
  function StreamCalls(json: string -> Payload, texts: seq<string>): Accumulator {
    AccumulateAll(map[], Fold(ChunkStep(json), ParserState("", NO_CALLS), AsChunks(texts)).1)
  }

  /** A response without transport error, in any pieces, gives the calls of its fragments. */
  lemma StreamCallsAreFragmentCalls(json: string -> Payload, texts: seq<string>)
    ensures StreamCalls(json, texts) ==
      AccumulateAll(map[], Fold(FragmentStep, NO_CALLS, TextFragments(json, Concat(texts))).1)
  {
    var start, text := ParserState("", NO_CALLS), Concat(texts);
    ChunksAreOneText(json, start, texts);
    assert "" + text == text;
    EventCarries(json);
    FoldCarries(EventStep(json), EventFragments(json), NO_CALLS, Drain(text).0);
    DeltasSuffice(map[], Feed(json, start, text).1);
  }

  /** End to end: one complete call per index, whatever the pieces the response arrives in. */
  lemma StreamGivesOneCallPerIndex(json: string -> Payload, texts: seq<string>)
    requires SameIndexSameId(TextFragments(json, Concat(texts)))
    ensures CallsAre(StreamCalls(json, texts), TextFragments(json, Concat(texts)))
  {
    hide TextFragments, Concat, SameIndexSameId, CallsAre;
    StreamCallsAreFragmentCalls(json, texts);
    hide StreamCalls;
    OneCallPerIndex(TextFragments(json, Concat(texts)), StreamCalls(json, texts));
  }
}
