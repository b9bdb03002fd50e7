/** What a provider writes, and that the stream parser reads just that: events of lines, and the data they carry. */
module Wire {
  import opened Options
  import opened Text
  import opened Folds
  import opened SseStream
  import opened Chunking
  import opened Pipeline
  import opened Response
  import opened ResponseText
  import opened Turn

  // ---- a line ----

  /** What a message does to the buffers, and what it puts out. */
  function Taken(json: string -> Payload, calls: Calls, data: string): (Calls, seq<Output>) {
    match json(data)
    case Parsed(choices, usage) => Fold(ChoiceStep(usage), calls, choices)
    case ApiError(message) => (calls, [Err("API error: " + message)])
    case Unparsable => (calls, [])
  }

  /** Data stand after `data:` and at most one blank; `[DONE]` is the end mark; any other line means nothing. */
  lemma LineMeans(json: string -> Payload, calls: Calls, text: string)
    ensures LineStep(json)(calls, "data: " + text) ==
      if text == "[DONE]" then (calls, [Ok(Done(Usage(0, 0, 0)))]) else Taken(json, calls, text)
    ensures !(" " <= text) ==> LineStep(json)(calls, "data:" + text) == LineStep(json)(calls, "data: " + text)
    ensures !("data:" <= text) ==> LineStep(json)(calls, text) == (calls, [])
  {
    DataAfterPrefix(text);
    hide LineData;
  }

  lemma DataAfterPrefix(text: string)
    ensures LineData("data: " + text) == Some(text)
    ensures !(" " <= text) ==> LineData("data:" + text) == Some(text)
    ensures !("data:" <= text) ==> LineData(text) == None
  {
    assert ("data: " + text)[6..] == text && ("data:" + text)[5..] == text;
    assert "data: " <= "data:" + text ==> ("data:" + text)[5] == " "[0];
    assert "data: "[..5] == "data:";
    assert "data: " <= text ==> text[..5] == "data: "[..5];
  }

  /** A choice gives its content, its reasoning, what its fragments put out, and its end with the usage. */
  lemma ChoiceMeans(usage: Option<Usage>, calls: Calls, c: Choice)
    ensures var (calls', deltas) := Fold(FragmentStep, calls, if c.toolCalls.Some? then c.toolCalls.value else []);
      var ended := c.finishReason in {Some("stop"), Some("tool_calls")};
      ChoiceStep(usage)(calls, c) == (calls',
        (if c.content.Some? then [Ok(Delta(c.content.value))] else [])
        + (if c.reasoning.Some? then [Ok(ReasoningDelta(c.reasoning.value))] else [])
        + deltas
        + if ended then [Ok(Done(if usage.Some? then usage.value else Usage(0, 0, 0)))] else [])
  {
  }

  /** An index is a 32-bit number, cast to 64 bits without sign; a fragment without one has index 0. */
  lemma IndexIs(f: Fragment)
    requires f.index.Some? ==> -0x8000_0000 <= f.index.value < 0x8000_0000
    ensures var i := if f.index.Some? then f.index.value else 0;
      0 <= Index(f) < 0x1_0000_0000_0000_0000 && (Index(f) - i) % 0x1_0000_0000_0000_0000 == 0
  {
  }

  // ---- a response ----

  /** An event as it is written: its lines, and what ends each line but the last. */
  datatype Event = Event(lines: seq<string>, ends: seq<string>)

  ghost predicate Writable(e: Event) {
    && |e.lines| == |e.ends| + 1
    && (forall l :: l in e.lines ==> l != "" && '\n' !in l && '\r' !in l)
    && (forall x :: x in e.ends ==> x == "\n" || x == "\r\n")
  }

  function Laid(lines: seq<string>, ends: seq<string>): string {
    if lines == [] then ""
    else if ends == [] then lines[0]
    else lines[0] + ends[0] + Laid(lines[1..], ends[1..])
  }

  /** A response: its events, each with a blank line after it. */
  function Written(events: seq<Event>): string {
    if events == [] then "" else Laid(events[0].lines, events[0].ends) + "\n\n" + Written(events[1..])
  }

  function AllLines(events: seq<Event>): seq<string> {
    if events == [] then [] else events[0].lines + AllLines(events[1..])
  }

  lemma SplitFirst(p: string, rest: string)
    requires '\n' !in p
    ensures Split(p + "\n" + rest, '\n') == [p] + Split(rest, '\n')
  {
    assert p + "\n" + rest == p + ("\n" + rest) && ("\n" + rest)[1..] == rest;
    SplitConcat(p, "\n" + rest, '\n');
    SplitFree(p, '\n');
    assert p + "" == p;
  }

  lemma LinesOfFirst(p: string, pieces: seq<string>)
    requires |pieces| > 0
    ensures LinesOf([p] + pieces) == [StripCr(p)] + LinesOf(pieces)
  {
    hide StripCr;
    var all, n := [p] + pieces, |pieces| - 1;
    assert all[n + 1] == pieces[n];
    assert seq(n + 1, i requires 0 <= i < n + 1 => StripCr(all[i]))
      == [StripCr(p)] + seq(n, i requires 0 <= i < n => StripCr(pieces[i]));
  }

  lemma LinesFirst(p: string, rest: string)
    requires '\n' !in p
    ensures Lines(p + "\n" + rest) == [StripCr(p)] + Lines(rest)
  {
    SplitFirst(p, rest);
    hide Split, StripCr, LinesOf;
    LinesOfFirst(p, Split(rest, '\n'));
  }

  lemma RestWritable(lines: seq<string>, ends: seq<string>)
    requires Writable(Event(lines, ends)) && ends != []
    ensures Writable(Event(lines[1..], ends[1..]))
  {
    assert forall l :: l in lines[1..] ==> l in lines;
    assert forall x :: x in ends[1..] ==> x in ends;
  }

  lemma OneLineLeft(l: string)
    requires l != "" && '\n' !in l
    ensures Lines(l) == [l]
  {
    SplitFree(l, '\n');
  }

  lemma LineEnds(l: string, end: string, rest: string)
    requires l != "" && '\n' !in l && '\r' !in l && (end == "\n" || end == "\r\n")
    ensures Lines(l + end + rest) == [l] + Lines(rest)
  {
    hide Lines;
    var p := if end == "\n" then l else l + "\r";
    assert l + end + rest == p + "\n" + rest;
    LinesFirst(p, rest);
    assert l[|l| - 1] in l;
    assert (l + "\r")[..|l|] == l;
  }

  lemma FirstWritable(lines: seq<string>, ends: seq<string>)
    requires Writable(Event(lines, ends))
    ensures |lines| == |ends| + 1 && lines[0] != "" && '\n' !in lines[0] && '\r' !in lines[0]
    ensures ends != [] ==> ends[0] == "\n" || ends[0] == "\r\n"
  {
    assert lines[0] in lines;
    if ends != [] { assert ends[0] in ends; }
  }

  lemma {:induction false} LinesOfLaid(lines: seq<string>, ends: seq<string>)
    requires Writable(Event(lines, ends))
    ensures Lines(Laid(lines, ends)) == lines
    decreases |ends|
  {
    hide Lines, Writable;
    FirstWritable(lines, ends);
    if ends == [] {
      OneLineLeft(lines[0]);
    } else {
      RestWritable(lines, ends);
      LineEnds(lines[0], ends[0], Laid(lines[1..], ends[1..]));
      LinesOfLaid(lines[1..], ends[1..]);
    }
  }

  /** No line feed is followed by another or ends the text, and none begins it. */
  predicate Unbroken(s: string) {
    s != "" && s[0] != '\n' && forall j :: 0 <= j < |s| && s[j] == '\n' ==> j + 1 < |s| && s[j + 1] != '\n'
  }

  lemma {:induction false} LaidUnbroken(lines: seq<string>, ends: seq<string>)
    requires Writable(Event(lines, ends))
    ensures Unbroken(Laid(lines, ends))
    decreases |ends|
  {
    var l := lines[0];
    assert l in lines && l[0] in l;
    assert forall j :: 0 <= j < |l| ==> l[j] in l;
    if ends != [] {
      RestWritable(lines, ends);
      LaidUnbroken(lines[1..], ends[1..]);
      assert ends[0] in ends;
    }
  }

  function Texts(events: seq<Event>): seq<string> {
    seq(|events|, i requires 0 <= i < |events| => Laid(events[i].lines, events[i].ends))
  }

  lemma FirstIsDrained(e: string, rest: string)
    requires Unbroken(e)
    ensures Drain(e + "\n\n" + rest) == ([e] + Drain(rest).0, Drain(rest).1)
  {
    var all := e + "\n\n" + rest;
    assert all[|e|..|e| + 2] == "\n\n" && all[..|e|] == e && all[|e| + 2..] == rest;
    forall j | 0 <= j < |e| ensures !OccursAt(all, SEPARATOR, j) {
      assert all[j..j + 2][0] == e[j];
      assert j + 1 < |e| ==> all[j..j + 2][1] == e[j + 1];
    }
    FindIs(all, SEPARATOR, |e|);
  }

  lemma {:induction false} DrainWritten(events: seq<Event>)
    requires forall e :: e in events ==> Writable(e)
    ensures Drain(Written(events)) == (Texts(events), "")
  {
    if events != [] {
      hide Writable, Unbroken, Laid, Drain;
      LaidUnbroken(events[0].lines, events[0].ends);
      FirstIsDrained(Laid(events[0].lines, events[0].ends), Written(events[1..]));
      DrainWritten(events[1..]);
      assert Texts(events) == [Laid(events[0].lines, events[0].ends)] + Texts(events[1..]);
    }
  }

  lemma {:induction false} EventsAreLines(json: string -> Payload, calls: Calls, events: seq<Event>)
    requires forall e :: e in events ==> Writable(e)
    ensures Fold(EventStep(json), calls, Texts(events)) == Fold(LineStep(json), calls, AllLines(events))
    decreases |events|
  {
    if events != [] {
      var e, texts := events[0], Texts(events);
      assert texts[0] == Laid(e.lines, e.ends) && texts[1..] == Texts(events[1..]);
      LinesOfLaid(e.lines, e.ends);
      hide Texts, Lines, Laid, LineStep;
      EventsAreLines(json, Fold(LineStep(json), calls, e.lines).0, events[1..]);
      FoldConcat(LineStep(json), calls, e.lines, AllLines(events[1..]));
    }
  }

  /** Whatever pieces a written response arrives in, the parser reads exactly its lines, and leaves nothing over. */
  lemma WrittenIsRead(json: string -> Payload, events: seq<Event>, texts: seq<string>)
    requires (forall e :: e in events ==> Writable(e)) && Concat(texts) == Written(events)
    ensures var (calls, outputs) := Fold(LineStep(json), NO_CALLS, AllLines(events));
      Fold(ChunkStep(json), ParserState("", NO_CALLS), AsChunks(texts)) == (ParserState("", calls), outputs)
  {
    ChunksAreOneText(json, ParserState("", NO_CALLS), texts);
    assert "" + Written(events) == Written(events);
    DrainWritten(events);
    EventsAreLines(json, NO_CALLS, events);
  }

  // ---- messages ----

  /** A message, alone in its event, as the standard has it. */
  function Messages(data: seq<string>): seq<Event> {
    seq(|data|, i requires 0 <= i < |data| => Event(["data: " + data[i]], []))
  }

  ghost predicate OneLine(data: string) {
    '\n' !in data && '\r' !in data
  }

  function ChoicesIn(json: string -> Payload, data: string): seq<Choice> {
    if data != "[DONE]" && json(data).Parsed? then json(data).choices else []
  }

  function Content(c: Choice): string {
    if c.content.Some? then c.content.value else ""
  }

  function Reasoning(c: Choice): string {
    if c.reasoning.Some? then c.reasoning.value else ""
  }

  function ToolParts(c: Choice): seq<Fragment> {
    if c.toolCalls.Some? then c.toolCalls.value else []
  }

  function MessageContent(json: string -> Payload): string -> string {
    (data: string) => ConcatMap(Content, ChoicesIn(json, data))
  }

  function MessageReasoning(json: string -> Payload): string -> string {
    (data: string) => ConcatMap(Reasoning, ChoicesIn(json, data))
  }

  function MessageParts(json: string -> Payload): string -> seq<Fragment> {
    (data: string) => FlatMap(ToolParts, ChoicesIn(json, data))
  }

  lemma {:induction false} SameTexts<X, Y>(g: X -> string, xs: seq<X>, h: Y -> string, ys: seq<Y>)
    requires |xs| == |ys| && forall i :: 0 <= i < |xs| ==> g(xs[i]) == h(ys[i])
    ensures ConcatMap(g, xs) == ConcatMap(h, ys)
  {
    if xs != [] { SameTexts(g, xs[1..], h, ys[1..]); }
  }

  lemma {:induction false} SameParts<X, Y, Z>(g: X -> seq<Z>, xs: seq<X>, h: Y -> seq<Z>, ys: seq<Y>)
    requires |xs| == |ys| && forall i :: 0 <= i < |xs| ==> g(xs[i]) == h(ys[i])
    ensures FlatMap(g, xs) == FlatMap(h, ys)
  {
    if xs != [] { SameParts(g, xs[1..], h, ys[1..]); }
  }

  lemma ChoicesSpeak(choices: seq<Choice>)
    ensures ConcatMap(OfChoice(Spoken), choices) == ConcatMap(Content, choices)
    ensures ConcatMap(OfChoice(Thought), choices) == ConcatMap(Reasoning, choices)
    ensures FlatMap(Fragments, choices) == FlatMap(ToolParts, choices)
  {
    forall i | 0 <= i < |choices|
      ensures OfChoice(Spoken)(choices[i]) == Content(choices[i])
      ensures OfChoice(Thought)(choices[i]) == Reasoning(choices[i])
    {
      ChoiceAddsItsContent(choices[i]);
    }
    hide OfChoice, Content, Reasoning;
    SameTexts(OfChoice(Spoken), choices, Content, choices);
    SameTexts(OfChoice(Thought), choices, Reasoning, choices);
    SameParts(Fragments, choices, ToolParts, choices);
  }

  /** One message in its event. */
  lemma MessageSpeaks(json: string -> Payload, data: string)
    requires OneLine(data)
    ensures OfEvent(json, Spoken)("data: " + data) == MessageContent(json)(data)
    ensures OfEvent(json, Thought)("data: " + data) == MessageReasoning(json)(data)
    ensures EventFragments(json)("data: " + data) == MessageParts(json)(data)
  {
    var line := "data: " + data;
    MessageWritable(data);
    LinesOfLaid([line], []);
    hide Lines, Writable, Laid;
    ConcatMapOne(OfLine(json, Spoken), line);
    ConcatMapOne(OfLine(json, Thought), line);
    FlatMapOne(LineFragments(json), line);
    MessageLine(json, data);
    hide OfLine, LineFragments, MessageContent, MessageReasoning, MessageParts, ConcatMap, FlatMap;
  }

  lemma FlatMapOne<X, Y>(g: X -> seq<Y>, x: X)
    ensures FlatMap(g, [x]) == g(x)
  {
    assert [x][1..] == [] && g(x) + [] == g(x);
  }

  lemma MessageLine(json: string -> Payload, data: string)
    ensures OfLine(json, Spoken)("data: " + data) == MessageContent(json)(data)
    ensures OfLine(json, Thought)("data: " + data) == MessageReasoning(json)(data)
    ensures LineFragments(json)("data: " + data) == MessageParts(json)(data)
  {
    DataAfterPrefix(data);
    hide LineData;
    ChoicesSpeak(ChoicesIn(json, data));
  }

  lemma MessageWritable(data: string)
    requires OneLine(data)
    ensures Writable(Event(["data: " + data], []))
  {
    assert '\n' !in "data: " && '\r' !in "data: ";
  }

  lemma MessagesSpeak(json: string -> Payload, data: seq<string>)
    requires forall d :: d in data ==> OneLine(d)
    ensures var texts := Texts(Messages(data));
      && ConcatMap(OfEvent(json, Spoken), texts) == ConcatMap(MessageContent(json), data)
      && ConcatMap(OfEvent(json, Thought), texts) == ConcatMap(MessageReasoning(json), data)
      && FlatMap(EventFragments(json), texts) == FlatMap(MessageParts(json), data)
  {
    var texts := Texts(Messages(data));
    assert |texts| == |data| && forall i :: 0 <= i < |data| ==> texts[i] == "data: " + data[i];
    hide Texts, Messages;
    forall i | 0 <= i < |data|
      ensures OfEvent(json, Spoken)(texts[i]) == MessageContent(json)(data[i])
      ensures OfEvent(json, Thought)(texts[i]) == MessageReasoning(json)(data[i])
      ensures EventFragments(json)(texts[i]) == MessageParts(json)(data[i])
    {
      MessageSpeaks(json, data[i]);
    }
    hide OfEvent, EventFragments, MessageContent, MessageReasoning, MessageParts, OneLine;
    SameTexts(OfEvent(json, Spoken), texts, MessageContent(json), data);
    SameTexts(OfEvent(json, Thought), texts, MessageReasoning(json), data);
    SameParts(EventFragments(json), texts, MessageParts(json), data);
  }

  lemma MessagesSay(json: string -> Payload, data: seq<string>)
    requires forall d :: d in data ==> OneLine(d)
    ensures var text := Written(Messages(data));
      && ContentOf(json, text) == ConcatMap(MessageContent(json), data)
      && ReasoningContentOf(json, text) == ConcatMap(MessageReasoning(json), data)
      && TextFragments(json, text) == FlatMap(MessageParts(json), data)
  {
    forall e | e in Messages(data) ensures Writable(e) {
      var i :| 0 <= i < |data| && e == Event(["data: " + data[i]], []);
      MessageWritable(data[i]);
    }
    hide Writable, OneLine, Written, Messages, Texts, Drain, ConcatMap, FlatMap;
    hide MessageContent, MessageReasoning, MessageParts, OfEvent, EventFragments;
    DrainWritten(Messages(data));
    MessagesSpeak(json, data);
  }

  /**
   * From the provider to the turn: of any messages, in any pieces, the turn gets the contents and the reasoning of all
   * their choices, and the parser the fragments of all their tool calls, in order and nothing else.
   */
  lemma MessagesArrive(json: string -> Payload, data: seq<string>, texts: seq<string>)
    requires (forall d :: d in data ==> OneLine(d)) && Concat(texts) == Written(Messages(data))
    ensures TextOf(ItemsOfResponse(json, texts)) == ConcatMap(MessageContent(json), data)
    ensures ReasoningOf(ItemsOfResponse(json, texts)) == ConcatMap(MessageReasoning(json), data)
    ensures TextFragments(json, Concat(texts)) == FlatMap(MessageParts(json), data)
  {
    hide *;
    TurnGetsTheText(json, texts);
    MessagesSay(json, data);
  }
}
