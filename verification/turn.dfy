/** One agent turn: call the model, run the tools it asks for, repeat until it answers or the budget is spent. */
module Turn {
  import opened Options
  import opened Text
  import opened SseStream
  import opened ToolCalls
  import opened History

  datatype StreamItem = Item(chunk: StreamChunk) | ItemError(message: string) | ItemTimeout

  datatype LlmOutcome = Stream(items: seq<StreamItem>) | LlmError(message: string) | LlmTimeout

  datatype ToolOutcome = ToolOk(text: string) | ToolFailed(message: string) | ToolTimeout

  /** What goes to the output sink. */
  datatype Event =
    | Status
    | TextDelta(text: string)
    | ToolStart(call: Call)
    | ToolEnd(name: string, result: string)
    | DoneEvent(usage: Option<Usage>)
    | ErrorEvent(message: string)

  datatype Request = Request(messages: seq<ChatMessage>, toolsOffered: bool)

  datatype Dispatch = Dispatch(round: nat, call: Call)

  /**
   * What a turn meets: the model's answers and the tools' by round, and the order in which a hash map yields its calls.
   */
  datatype Environment = Environment(
    provider: (nat, Request) -> LlmOutcome, tools: (nat, Call) -> ToolOutcome,
    order: (nat, Accumulator) -> seq<Call>, preContext: Option<ChatMessage>)

  /** `requests` went to the model and `dispatched` to the tools. */
  datatype TurnState = TurnState(
    history: seq<ChatMessage>, events: seq<Event>, requests: seq<Request>, dispatched: seq<Dispatch>,
    usage: Option<Usage>)

  datatype TurnResult = TurnResult(response: string, usage: Option<Usage>, turnsUsed: nat, completed: bool)

  // ---- what a stream says ----

  predicate Clean(items: seq<StreamItem>) {
    forall i :: i in items ==> i.Item?
  }

  /** What is read before the first error. */
  function CleanPrefix(items: seq<StreamItem>): seq<StreamItem> {
    if items == [] || !items[0].Item? then [] else [items[0]] + CleanPrefix(items[1..])
  }

  function TextOf(items: seq<StreamItem>): string {
    if items == [] then ""
    else
      var last := items[|items| - 1];
      TextOf(items[..|items| - 1]) + (if last.Item? && last.chunk.Delta? then last.chunk.text else "")
  }

  function ReasoningOf(items: seq<StreamItem>): string {
    if items == [] then ""
    else
      var last := items[|items| - 1];
      ReasoningOf(items[..|items| - 1]) + (if last.Item? && last.chunk.ReasoningDelta? then last.chunk.text else "")
  }

  function CallsOf(items: seq<StreamItem>): Accumulator {
    if items == [] then map[]
    else
      var last := items[|items| - 1];
      var before := CallsOf(items[..|items| - 1]);
      if last.Item? then AccumulateOutput(before, Ok(last.chunk)) else before
  }

  function UsageOf(before: Option<Usage>, items: seq<StreamItem>): Option<Usage> {
    if items == [] then before
    else
      var last := items[|items| - 1];
      if last.Item? && last.chunk.Done? then Some(last.chunk.usage) else UsageOf(before, items[..|items| - 1])
  }

  function DeltaEvents(items: seq<StreamItem>): seq<Event> {
    if items == [] then []
    else
      var last := items[|items| - 1];
      DeltaEvents(items[..|items| - 1]) + (if last.Item? && last.chunk.Delta? then [TextDelta(last.chunk.text)] else [])
  }

  const STREAM_TIMEOUT: string := "LLM stream timed out. The response was too large or the connection was lost."

  function ItemErrors(item: StreamItem): seq<Event> {
    match item
    case Item(_) => []
    case ItemError(message) => [ErrorEvent("Stream error: " + message)]
    case ItemTimeout => [ErrorEvent(STREAM_TIMEOUT)]
  }

  /** The report of the first error, if there is one. */
  function ErrorEvents(items: seq<StreamItem>): seq<Event> {
    var n := |CleanPrefix(items)|;
    if n < |items| then ItemErrors(items[n]) else []
  }

  lemma {:induction false} CleanPrefixIs(items: seq<StreamItem>, k: nat)
    requires k <= |items| && Clean(items[..k]) && (k < |items| ==> !items[k].Item?)
    ensures CleanPrefix(items) == items[..k]
    ensures Clean(items) <==> k == |items|
  {
    if k < |items| { assert items[k] in items; } else { assert items[..k] == items; }
    if k > 0 {
      assert items[..k][0] == items[0] && items[1..][..k - 1] == items[..k][1..];
      CleanPrefixIs(items[1..], k - 1);
      assert items[..k] == [items[0]] + items[1..][..k - 1];
    }
  }

  ghost predicate Keyed(acc: Accumulator) {
    forall id :: id in acc ==> acc[id].id == id
  }

  lemma {:induction false} CallsOfKeyed(items: seq<StreamItem>)
    ensures Keyed(CallsOf(items))
  {
    if items != [] { CallsOfKeyed(items[..|items| - 1]); }
  }

  /** The entries of the accumulator, in some order. */
  ghost predicate Lists(calls: seq<Call>, acc: Accumulator) {
    && DistinctIds(calls)
    && (forall c :: c in calls ==> c.id in acc && acc[c.id] == c)
    && (forall id :: id in acc ==> acc[id] in calls)
  }

  /** A hash map yields every entry once. */
  ghost predicate YieldsEntries(env: Environment) {
    forall round, acc :: Keyed(acc) ==> Lists(env.order(round, acc), acc)
  }

  // ---- a round ----

  const FORCED_FINAL_HINT: string := "[Context] The tool-call budget for this turn is exhausted."
  const EMPTY_NAME: string := "Error: tool call had empty name, skipped"
  const EMPTY_ARGUMENTS: string := "Error: tool call had empty arguments, skipped"

  function EffectiveHistory(h: seq<ChatMessage>, preContext: Option<ChatMessage>, forcedFinal: bool): seq<ChatMessage> {
    WithContext(h, preContext) + (if forcedFinal then [TextMessage(User, FORCED_FINAL_HINT)] else [])
  }

  function ResultText(o: ToolOutcome): string {
    match o
    case ToolOk(text) => text
    case ToolFailed(message) => "Error: " + message
    case ToolTimeout => "Error: Tool call timed out"
  }

  predicate Skipped(c: Call) {
    Trim(c.name) == "" || Trim(c.arguments) == ""
  }

  function StartEvents(calls: seq<Call>): seq<Event> {
    seq(|calls|, i requires 0 <= i < |calls| => ToolStart(calls[i]))
  }

  /** One call: a ghost call and a call without arguments get a result without being run. */
  function CallStep(env: Environment, round: nat, s: TurnState, tc: Call): TurnState {
    if Trim(tc.name) == "" then s.(history := s.history + [ToolResult(tc, EMPTY_NAME)])
    else if Trim(tc.arguments) == "" then s.(history := s.history + [ToolResult(tc, EMPTY_ARGUMENTS)])
    else
      var text := ResultText(env.tools(round, tc));
      s.(history := s.history + [ToolResult(tc, text)], events := s.events + [ToolEnd(tc.name, text)],
         dispatched := s.dispatched + [Dispatch(round, tc)])
  }

  function CallSteps(env: Environment, round: nat, s: TurnState, calls: seq<Call>): TurnState {
    if calls == [] then s
    else CallStep(env, round, CallSteps(env, round, s, calls[..|calls| - 1]), calls[|calls| - 1])
  }

  datatype RoundEnd = RoundEnd(state: TurnState, stop: bool, response: string, completed: bool)

  function AskMessage(content: string, reasoning: string, calls: seq<Call>): ChatMessage {
    ChatMessage(Assistant, content, if calls == [] then None else Some(calls), None,
                if reasoning == "" then None else Some(reasoning))
  }

  /** A round whose stream ended well. */
  function Conclusion(env: Environment, round: nat, forcedFinal: bool, s: TurnState,
                      content: string, reasoning: string, calls: seq<Call>): RoundEnd
  {
    var done := s.(events := s.events + [DoneEvent(s.usage)]);
    if calls == [] then
      RoundEnd(done.(history := s.history + [AskMessage(content, reasoning, [])]), true, content, true)
    else if forcedFinal then
      // No tools were offered: the calls are dropped, they would stay unanswered.
      var last := if content != "" then done else s;
      RoundEnd(last.(history := s.history + [AskMessage(content, reasoning, [])]), true, content, content != "")
    else
      var asked := s.(history := s.history + [AskMessage(content, reasoning, calls)], events := s.events + [Status]);
      RoundEnd(CallSteps(env, round, asked, calls), false, "", false)
  }

  function Asked(env: Environment, forcedFinal: bool, s: TurnState): Request {
    Request(EffectiveHistory(s.history, env.preContext, forcedFinal), !forcedFinal)
  }

  /** The model asked, its stream read. */
  function AfterStream(s: TurnState, request: Request, items: seq<StreamItem>): TurnState {
    s.(requests := s.requests + [request],
       events := s.events + [Status] + DeltaEvents(CleanPrefix(items)) + ErrorEvents(items),
       usage := UsageOf(s.usage, CleanPrefix(items)))
  }

  function RoundOf(env: Environment, round: nat, forcedFinal: bool, s: TurnState): RoundEnd {
    var request := Asked(env, forcedFinal, s);
    var asking := s.(requests := s.requests + [request], events := s.events + [Status]);
    match env.provider(round, request)
    case LlmError(message) =>
      RoundEnd(asking.(events := asking.events + [ErrorEvent("LLM error: " + message)]), true, "", false)
    case LlmTimeout =>
      RoundEnd(asking.(events := asking.events + [ErrorEvent("LLM request timed out")]), true, "", false)
    case Stream(items) =>
      var read := AfterStream(s, request, items);
      if !Clean(items) then RoundEnd(read, true, TextOf(CleanPrefix(items)), false)
      else
        var calls := env.order(round, CallsOf(items));
        var announced := read.(events := read.events + StartEvents(calls));
        Conclusion(env, round, forcedFinal, announced, TextOf(items), ReasoningOf(items), calls)
  }

  /** The rounds from `round` on. */
  function TurnOf(env: Environment, round: nat, maxTurns: nat, s: TurnState): (TurnState, TurnResult)
    decreases maxTurns - round
  {
    if round >= maxTurns then (s, TurnResult("", s.usage, round, false))
    else
      var end := RoundOf(env, round, round + 1 == maxTurns, s);
      if end.stop then (end.state, TurnResult(end.response, end.state.usage, round + 1, end.completed))
      else TurnOf(env, round + 1, maxTurns, end.state)
  }

  const FALLBACK: string := "The turn ended without a final answer; ask again or continue from here."

  /** The detached chat task: when the turn did not finish by itself, it says something and finishes. */
  function ChatOf(env: Environment, maxTurns: nat, s: TurnState): TurnState {
    var (end, result) := TurnOf(env, 0, maxTurns, s);
    if result.completed then end else end.(events := end.events + [TextDelta(FALLBACK), DoneEvent(Some(NO_USAGE))])
  }

  class AgentTurn {
    const env: Environment
    var history: seq<ChatMessage>
    var events: seq<Event>
    var requests: seq<Request>
    var dispatched: seq<Dispatch>
    var finalUsage: Option<Usage>

    ghost function State(): TurnState
      reads this
    {
      TurnState(history, events, requests, dispatched, finalUsage)
    }

    constructor (history: seq<ChatMessage>, env: Environment)
      ensures this.env == env && State() == TurnState(history, [], [], [], None)
    {
      this.history, this.env := history, env;
      events, requests, dispatched, finalUsage := [], [], [], None;
    }

    /** Read a stream to its end or to its first error. */
    method ReadStream(items: seq<StreamItem>) returns (content: string, reasoning: string, calls: Accumulator,
        hadError: bool)
      modifies this`events, this`finalUsage
      ensures hadError <==> !Clean(items)
      ensures content == TextOf(CleanPrefix(items)) && reasoning == ReasoningOf(CleanPrefix(items))
      ensures calls == CallsOf(CleanPrefix(items))
      ensures events == old(events) + DeltaEvents(CleanPrefix(items)) + ErrorEvents(items)
      ensures finalUsage == UsageOf(old(finalUsage), CleanPrefix(items))
    {
      hide ErrorEvents;
      content, reasoning, calls := "", "", map[];
      for k := 0 to |items|
        invariant Clean(items[..k])
        invariant content == TextOf(items[..k]) && reasoning == ReasoningOf(items[..k]) && calls == CallsOf(items[..k])
        invariant events == old(events) + DeltaEvents(items[..k]) && finalUsage == UsageOf(old(finalUsage), items[..k])
      {
        if !items[k].Item? {
          CleanPrefixIs(items, k);
          ReportIs(items);
          events := events + ItemErrors(items[k]);
          return content, reasoning, calls, true;
        }
        OneMore(items, k);
        match items[k].chunk {
          case Delta(text) =>
            content := content + text;
            events := events + [TextDelta(text)];
          case ReasoningDelta(text) => reasoning := reasoning + text;
          case ToolCallDelta(id, name, args) => calls := Accumulate(calls, id, name, args);
          case Done(usage) => finalUsage := Some(usage);
        }
      }
      CleanPrefixIs(items, |items|);
      ReportIs(items);
      assert items[..|items|] == items;
      return content, reasoning, calls, false;
    }

    method AnnounceCalls(calls: seq<Call>)
      modifies this`events
      ensures events == old(events) + StartEvents(calls)
    {
      for k := 0 to |calls|
        invariant events == old(events) + StartEvents(calls)[..k]
      {
        events := events + [ToolStart(calls[k])];
      }
    }

    method DispatchCall(round: nat, tc: Call)
      modifies this`history, this`events, this`dispatched
      ensures State() == CallStep(env, round, old(State()), tc)
    {
      if Trim(tc.name) == "" {
        history := history + [ToolResult(tc, EMPTY_NAME)];
        return;
      }
      if Trim(tc.arguments) == "" {
        history := history + [ToolResult(tc, EMPTY_ARGUMENTS)];
        return;
      }
      dispatched := dispatched + [Dispatch(round, tc)];
      var resultStr := ResultText(env.tools(round, tc));
      events := events + [ToolEnd(tc.name, resultStr)];
      history := history + [ToolResult(tc, resultStr)];
    }

    /** Run the calls of a round in order, one result message for each. */
    method DispatchCalls(round: nat, calls: seq<Call>)
      modifies this`history, this`events, this`dispatched
      ensures State() == CallSteps(env, round, old(State()), calls)
    {
      hide CallStep;
      for k := 0 to |calls|
        invariant State() == CallSteps(env, round, old(State()), calls[..k])
      {
        DispatchCall(round, calls[k]);
        assert calls[..k + 1][..k] == calls[..k];
      }
      assert calls[..|calls|] == calls;
    }

    /** One round. `stop` tells whether the turn ends with it. */
    method Round(round: nat, forcedFinal: bool) returns (stop: bool, response: string, completed: bool)
      modifies this`history, this`events, this`requests, this`dispatched, this`finalUsage
      ensures RoundEnd(State(), stop, response, completed) == RoundOf(env, round, forcedFinal, old(State()))
    {
      hide Clean, CleanPrefix, TextOf, ReasoningOf, CallsOf, UsageOf;
      hide DeltaEvents, ErrorEvents, EffectiveHistory, Conclusion, StartEvents;
      var request := Request(EffectiveHistory(history, env.preContext, forcedFinal), !forcedFinal);
      events := events + [Status];
      requests := requests + [request];
      var items;
      match env.provider(round, request) {
        case LlmError(message) =>
          events := events + [ErrorEvent("LLM error: " + message)];
          return true, "", false;
        case LlmTimeout =>
          events := events + [ErrorEvent("LLM request timed out")];
          return true, "", false;
        case Stream(s) => items := s;
      }
      var content, reasoning, acc, hadError := ReadStream(items);
      if hadError {
        return true, content, false;
      }
      CleanIsWhole(items);
      var calls := env.order(round, acc);
      AnnounceCalls(calls);
      stop, response, completed := Conclude(round, forcedFinal, content, reasoning, calls);
    }

    /** The second half of a round, once the stream has ended well. */
    method Conclude(round: nat, forcedFinal: bool, content: string, reasoning: string, calls: seq<Call>)
      returns (stop: bool, response: string, completed: bool)
      modifies this`history, this`events, this`dispatched
      ensures RoundEnd(State(), stop, response, completed) ==
        Conclusion(env, round, forcedFinal, old(State()), content, reasoning, calls)
    {
      hide CallSteps;
      history := history + [AskMessage(content, reasoning, calls)];
      if calls == [] {
        events := events + [DoneEvent(finalUsage)];
        return true, content, true;
      }
      if forcedFinal {
        history := history[|history| - 1 := history[|history| - 1].(toolCalls := None)];
        assert history == old(history) + [AskMessage(content, reasoning, [])];
        if content != "" {
          events := events + [DoneEvent(finalUsage)];
        }
        return true, content, content != "";
      }
      events := events + [Status];
      DispatchCalls(round, calls);
      return false, "", false;
    }

    method RunTurn(maxTurns: nat) returns (result: TurnResult)
      modifies this`history, this`events, this`requests, this`dispatched, this`finalUsage
      ensures (State(), result) == TurnOf(env, 0, maxTurns, old(State()))
    {
      hide RoundOf;
      for round := 0 to maxTurns
        invariant TurnOf(env, 0, maxTurns, old(State())) == TurnOf(env, round, maxTurns, State())
      {
        var stop, response, completed := Round(round, round + 1 == maxTurns);
        if stop { return TurnResult(response, finalUsage, round + 1, completed); }
      }
      return TurnResult("", finalUsage, maxTurns, false);
    }

    method RunChatTask(maxTurns: nat)
      modifies this`history, this`events, this`requests, this`dispatched, this`finalUsage
      ensures State() == ChatOf(env, maxTurns, old(State()))
    {
      hide TurnOf;
      var result := RunTurn(maxTurns);
      if !result.completed {
        events := events + [TextDelta(FALLBACK)];
        events := events + [DoneEvent(Some(NO_USAGE))];
      }
    }
  }

  lemma OneMore(items: seq<StreamItem>, k: nat)
    requires k < |items| && Clean(items[..k]) && items[k].Item?
    ensures items[..k + 1][..k] == items[..k] && items[..k + 1][k] == items[k] && Clean(items[..k + 1])
  {
  }

  lemma ReportIs(items: seq<StreamItem>)
    ensures var n := |CleanPrefix(items)|; ErrorEvents(items) == if n < |items| then ItemErrors(items[n]) else []
  {
  }

  lemma CleanIsWhole(items: seq<StreamItem>)
    requires Clean(items)
    ensures CleanPrefix(items) == items
  {
  }
}
