/** The server-sent event stream of an OpenAI-compatible provider, turned into stream chunks. */
module SseStream {
  import opened Options
  import opened Text
  import opened Folds

  datatype Usage = Usage(prompt: int, completion: int, total: int)

  const NO_USAGE: Usage := Usage(0, 0, 0)

  datatype StreamChunk =
    | Delta(text: string)
    | ReasoningDelta(text: string)
    | ToolCallDelta(id: string, name: string, args: string)
    | Done(usage: Usage)

  datatype Output = Ok(chunk: StreamChunk) | Err(message: string)

  /** A piece of a tool call, as one JSON message carries it. */
  datatype Fragment = Fragment(index: Option<int>, id: Option<string>, name: Option<string>, args: Option<string>)

  datatype Choice = Choice(
    content: Option<string>, reasoning: Option<string>, toolCalls: Option<seq<Fragment>>, finishReason: Option<string>)

  /** What the JSON decoder makes of the data of a line. */
  datatype Payload = Parsed(choices: seq<Choice>, usage: Option<Usage>) | ApiError(message: string) | Unparsable

  datatype ToolCallBuffer = ToolCallBuffer(id: string, name: string, arguments: string, emittedLen: nat)

  const EMPTY_BUFFER: ToolCallBuffer := ToolCallBuffer("", "", "", 0)

  type Calls = m: map<int, ToolCallBuffer> | forall i :: i in m ==> m[i].emittedLen <= |m[i].arguments|

  const NO_CALLS: Calls := map[]

  function OrEmpty(s: Option<string>): string {
    if s.Some? then s.value else ""
  }

  const USIZE: int := 0x1_0000_0000_0000_0000

  /** `tc.index.unwrap_or(0) as usize`. */
  function Index(f: Fragment): int {
    var i := if f.index.Some? then f.index.value else 0;
    if i < 0 then i + USIZE else i
  }

  function Merge(b: ToolCallBuffer, f: Fragment): ToolCallBuffer {
    b.(id := if OrEmpty(f.id) != "" then OrEmpty(f.id) else b.id,
       name := b.name + OrEmpty(f.name),
       arguments := b.arguments + OrEmpty(f.args))
  }

  /** One fragment: merge it into its buffer, and put out whatever arguments are not out yet
      once both the id and the name are known. */
  function FragmentStep(calls: Calls, f: Fragment): (Calls, seq<Output>) {
    var idx := Index(f);
    var entry := Merge(if idx in calls then calls[idx] else EMPTY_BUFFER, f);
    var newArgs := entry.arguments[entry.emittedLen..];
    if entry.id != "" && entry.name != "" && newArgs != "" then
      (calls[idx := entry.(emittedLen := |entry.arguments|)], [Ok(ToolCallDelta(entry.id, entry.name, newArgs))])
    else (calls[idx := entry], [])
  }

  function Fragments(c: Choice): seq<Fragment> {
    if c.toolCalls.Some? then c.toolCalls.value else []
  }

  function TextOutputs(c: Choice): seq<Output> {
    (if c.content.Some? then [Ok(Delta(c.content.value))] else [])
    + (if c.reasoning.Some? then [Ok(ReasoningDelta(c.reasoning.value))] else [])
  }

  function FinishOutputs(c: Choice, usage: Option<Usage>): seq<Output> {
    if c.finishReason == Some("stop") || c.finishReason == Some("tool_calls")
    then [Ok(Done(if usage.Some? then usage.value else NO_USAGE))]
    else []
  }

  function ChoiceStep(usage: Option<Usage>): (Calls, Choice) -> (Calls, seq<Output>) {
    (calls: Calls, c: Choice) =>
      var (calls', out) := Fold(FragmentStep, calls, Fragments(c));
      (calls', TextOutputs(c) + out + FinishOutputs(c, usage))
  }

  /** The data of a line, if it has any. */
  function LineData(line: string): Option<string> {
    if "data: " <= line then Some(line[6..])
    else if "data:" <= line then Some(line[5..])
    else None
  }

  function LineStep(json: string -> Payload): (Calls, string) -> (Calls, seq<Output>) {
    (calls: Calls, line: string) =>
      match LineData(line)
      case None => (calls, [])
      case Some(data) =>
        if data == "[DONE]" then (calls, [Ok(Done(NO_USAGE))])
        else
          match json(data)
          case Parsed(choices, usage) => Fold(ChoiceStep(usage), calls, choices)
          case ApiError(message) => (calls, [Err("API error: " + message)])
          case Unparsable => (calls, [])
  }

  /** `str::lines`: a carriage return before a line feed belongs to the line end; no last empty line. */
  function Lines(s: string): seq<string> {
    LinesOf(Split(s, '\n'))
  }

  function LinesOf(pieces: seq<string>): seq<string>
    requires |pieces| > 0
  {
    var n := |pieces| - 1;
    seq(n, i requires 0 <= i < n => StripCr(pieces[i])) + (if pieces[n] == "" then [] else [pieces[n]])
  }

  function StripCr(s: string): string {
    if s != "" && s[|s| - 1] == '\r' then s[..|s| - 1] else s
  }

  function EventStep(json: string -> Payload): (Calls, string) -> (Calls, seq<Output>) {
    (calls: Calls, event: string) => Fold(LineStep(json), calls, Lines(event))
  }

  const SEPARATOR: string := "\n\n"

  /** The complete events at the front of a buffer, and what is left. */
  function Drain(buffer: string): (seq<string>, string) {
    match Find(buffer, SEPARATOR)
    case Some(pos) =>
      var (events, rest) := Drain(buffer[pos + 2..]);
      ([buffer[..pos]] + events, rest)
    case None => ([], buffer)
  }

  datatype ParserState = ParserState(buffer: string, calls: Calls)

  /** Feeding text to the parser. */
  function Feed(json: string -> Payload, st: ParserState, text: string): (ParserState, seq<Output>) {
    var (events, rest) := Drain(st.buffer + text);
    var (calls, out) := Fold(EventStep(json), st.calls, events);
    (ParserState(rest, calls), out)
  }

  /** A network chunk, decoded, or a transport error. */
  datatype Chunk = Data(text: string) | Broken(message: string)

  function ChunkStep(json: string -> Payload): (ParserState, Chunk) -> (ParserState, seq<Output>) {
    (st: ParserState, c: Chunk) =>
      match c
      case Data(text) => Feed(json, st, text)
      case Broken(message) => (st, [Err("Stream error: " + message)])
  }

  class SseParser {
    const json: string -> Payload
    var buffer: string
    var calls: Calls

    ghost function State(): ParserState
      reads this
    {
      ParserState(buffer, calls)
    }

    constructor (json: string -> Payload)
      ensures this.json == json && State() == ParserState("", NO_CALLS)
    {
      this.json := json;
      buffer := "";
      calls := map[];
    }

    method OnFragment(tc: Fragment) returns (outputs: seq<Output>)
      modifies this`calls
      ensures (calls, outputs) == FragmentStep(old(calls), tc)
    {
      outputs := [];
      var idx := Index(tc);
      var entry := Merge(if idx in calls then calls[idx] else EMPTY_BUFFER, tc);
      if entry.id != "" && entry.name != "" {
        var newArgs := entry.arguments[entry.emittedLen..];
        if newArgs != "" {
          entry := entry.(emittedLen := |entry.arguments|);
          outputs := [Ok(ToolCallDelta(entry.id, entry.name, newArgs))];
        }
      }
      calls := calls[idx := entry];
    }

    method OnFragments(tcs: seq<Fragment>) returns (outputs: seq<Output>)
      modifies this`calls
      ensures (calls, outputs) == Fold(FragmentStep, old(calls), tcs)
    {
      outputs := [];
      for k := 0 to |tcs|
        invariant (calls, outputs) == Fold(FragmentStep, old(calls), tcs[..k])
      {
        FoldPrefix(FragmentStep, old(calls), tcs, k);
        var out := OnFragment(tcs[k]);
        outputs := outputs + out;
      }
      assert tcs[..|tcs|] == tcs;
    }

    method OnChoices(choices: seq<Choice>, usage: Option<Usage>) returns (outputs: seq<Output>)
      modifies this`calls
      ensures (calls, outputs) == Fold(ChoiceStep(usage), old(calls), choices)
    {
      outputs := [];
      for k := 0 to |choices|
        invariant (calls, outputs) == Fold(ChoiceStep(usage), old(calls), choices[..k])
      {
        var c := choices[k];
        FoldPrefix(ChoiceStep(usage), old(calls), choices, k);
        var out := OnFragments(Fragments(c));
        outputs := outputs + (TextOutputs(c) + out + FinishOutputs(c, usage));
      }
      assert choices[..|choices|] == choices;
    }

    method OnLine(line: string) returns (outputs: seq<Output>)
      modifies this`calls
      ensures (calls, outputs) == LineStep(json)(old(calls), line)
    {
      outputs := [];
      var data := LineData(line);
      if data.Some? {
        if data.value == "[DONE]" {
          outputs := [Ok(Done(NO_USAGE))];
        } else {
          match json(data.value)
          case Parsed(choices, usage) => outputs := OnChoices(choices, usage);
          case ApiError(message) => outputs := [Err("API error: " + message)];
          case Unparsable =>
        }
      }
    }

    method OnEvent(event: string) returns (outputs: seq<Output>)
      modifies this`calls
      ensures (calls, outputs) == EventStep(json)(old(calls), event)
    {
      outputs := [];
      var lines := Lines(event);
      for k := 0 to |lines|
        invariant (calls, outputs) == Fold(LineStep(json), old(calls), lines[..k])
      {
        FoldPrefix(LineStep(json), old(calls), lines, k);
        var out := OnLine(lines[k]);
        outputs := outputs + out;
      }
      assert lines[..|lines|] == lines;
    }

    method OnData(text: string) returns (outputs: seq<Output>)
      modifies this
      ensures (State(), outputs) == Feed(json, old(State()), text)
    {
      outputs := [];
      buffer := buffer + text;
      ghost var (events, rest) := Drain(buffer);
      ghost var k := 0;
      var pos := Find(buffer, SEPARATOR);
      while pos.Some?
        invariant pos == Find(buffer, SEPARATOR)
        invariant 0 <= k <= |events| && Drain(buffer) == (events[k..], rest)
        invariant (calls, outputs) == Fold(EventStep(json), old(calls), events[..k])
        decreases |buffer|
      {
        var event := buffer[..pos.value];
        buffer := buffer[pos.value + 2..];
        assert event == events[k..][0] && Drain(buffer) == (events[k..][1..], rest);
        FoldPrefix(EventStep(json), old(calls), events, k);
        var out := OnEvent(event);
        outputs := outputs + out;
        pos := Find(buffer, SEPARATOR);
        k := k + 1;
      }
      assert events[..k] == events;
    }

    /** One item of the byte stream. */
    method OnChunk(chunk: Chunk) returns (outputs: seq<Output>)
      modifies this
      ensures (State(), outputs) == ChunkStep(json)(old(State()), chunk)
    {
      match chunk
      case Data(text) => outputs := OnData(text);
      case Broken(message) => outputs := [Err("Stream error: " + message)];
    }
  }
}
