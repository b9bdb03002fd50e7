/** How a turn ends, told from the model's answers and the tools' results alone. */
module TurnEnds {
  import opened Options
  import opened Text
  import opened SseStream
  import opened ToolCalls
  import opened History
  import opened Turn
  import opened TurnProps

  /** What the model says in a round, asked with the history `h`. */
  function Answer(env: Environment, maxTurns: nat, h: seq<ChatMessage>, round: nat): LlmOutcome {
    env.provider(round, RequestIn(env, maxTurns, h, round))
  }

  function RequestIn(env: Environment, maxTurns: nat, h: seq<ChatMessage>, round: nat): Request {
    Request(EffectiveHistory(h, env.preContext, round + 1 == maxTurns), round + 1 < maxTurns)
  }

  /** Another round follows: the stream ended well and asks for tools, which were on offer. */
  predicate GoesOn(env: Environment, maxTurns: nat, h: seq<ChatMessage>, round: nat) {
    var answer := Answer(env, maxTurns, h, round);
    round + 1 < maxTurns && answer.Stream? && Clean(answer.items) && env.order(round, CallsOf(answer.items)) != []
  }

  /** The assistant message of a round. */
  function Says(items: seq<StreamItem>, calls: Option<seq<Call>>): ChatMessage {
    ChatMessage(Assistant, TextOf(items), calls, None,
                if ReasoningOf(items) == "" then None else Some(ReasoningOf(items)))
  }

  /** A round that goes on: the request for tools, one result for each call, the reports in between. */
  function Next(env: Environment, maxTurns: nat, s: TurnState, round: nat, items: seq<StreamItem>): TurnState {
    var calls := env.order(round, CallsOf(items));
    TurnState(
      s.history + [Says(items, Some(calls))] + ResultsOf(env, round, calls),
      s.events + [Status] + DeltaEvents(items) + StartEvents(calls) + [Status]
        + Reports(env, DispatchesOf(round, calls)),
      s.requests + [RequestIn(env, maxTurns, s.history, round)],
      s.dispatched + DispatchesOf(round, calls),
      UsageOf(s.usage, items))
  }

  /** Before round `r` of a turn whose rounds have gone on so far. */
  function Before(env: Environment, maxTurns: nat, history: seq<ChatMessage>, r: nat): TurnState {
    if r == 0 then Start(history)
    else
      var s := Before(env, maxTurns, history, r - 1);
      match Answer(env, maxTurns, s.history, r - 1)
      case Stream(items) => Next(env, maxTurns, s, r - 1, items)
      case _ => s
  }

  /** Round `r` is the last of the turn: the first that does not go on. */
  ghost predicate EndsIn(env: Environment, maxTurns: nat, history: seq<ChatMessage>, r: nat) {
    && r < maxTurns
    && (forall q :: 0 <= q < r ==> GoesOn(env, maxTurns, Before(env, maxTurns, history, q).history, q))
    && !GoesOn(env, maxTurns, Before(env, maxTurns, history, r).history, r)
  }

  lemma {:induction false} EndsSomewhere(env: Environment, maxTurns: nat, history: seq<ChatMessage>, from: nat)
    returns (r: nat)
    requires from < maxTurns
    requires forall q :: 0 <= q < from ==> GoesOn(env, maxTurns, Before(env, maxTurns, history, q).history, q)
    ensures EndsIn(env, maxTurns, history, r)
    decreases maxTurns - from
  {
    hide Before;
    if from + 1 < maxTurns && GoesOn(env, maxTurns, Before(env, maxTurns, history, from).history, from) {
      r := EndsSomewhere(env, maxTurns, history, from + 1);
    } else {
      r := from;
    }
  }

  lemma RoundGoesOn(env: Environment, maxTurns: nat, s: TurnState, round: nat)
    requires GoesOn(env, maxTurns, s.history, round)
    ensures var items := Answer(env, maxTurns, s.history, round).items;
      RoundOf(env, round, false, s) == RoundEnd(Next(env, maxTurns, s, round, items), false, "", false)
  {
    hide Clean, TextOf, ReasoningOf, CallsOf, UsageOf, DeltaEvents, EffectiveHistory, CallSteps;
    hide StartEvents, ResultsOf, Reports, DispatchesOf;
    var items := Answer(env, maxTurns, s.history, round).items;
    CleanIsWhole(items);
    NoReport(items);
    hide ErrorEvents, CleanPrefix;
    var calls := env.order(round, CallsOf(items));
    var read := AfterStream(s, RequestIn(env, maxTurns, s.history, round), items);
    var asked := read.(history := s.history + [Says(items, Some(calls))],
                       events := read.events + StartEvents(calls) + [Status]);
    CallStepsAre(env, round, asked, calls);
    assert read.events == s.events + [Status] + DeltaEvents(items);
  }

  lemma NoReport(items: seq<StreamItem>)
    requires Clean(items)
    ensures ErrorEvents(items) == []
  {
    CleanIsWhole(items);
  }

  lemma {:induction false} RoundsGoOn(env: Environment, maxTurns: nat, history: seq<ChatMessage>, r: nat)
    requires r < maxTurns
    requires forall q :: 0 <= q < r ==> GoesOn(env, maxTurns, Before(env, maxTurns, history, q).history, q)
    ensures TurnOf(env, 0, maxTurns, Start(history)) == TurnOf(env, r, maxTurns, Before(env, maxTurns, history, r))
  {
    hide RoundOf, Next, Clean, CallsOf, RequestIn;
    if r > 0 {
      RoundsGoOn(env, maxTurns, history, r - 1);
      var s := Before(env, maxTurns, history, r - 1);
      assert GoesOn(env, maxTurns, s.history, r - 1);
      RoundGoesOn(env, maxTurns, s, r - 1);
    }
  }

  /** Whether a turn that ends with this answer is complete. */
  predicate Completes(env: Environment, maxTurns: nat, r: nat, answer: LlmOutcome) {
    && answer.Stream? && Clean(answer.items)
    && (env.order(r, CallsOf(answer.items)) == [] || (r + 1 == maxTurns && TextOf(answer.items) != ""))
  }

  /** What the last round reports. */
  function LastEvents(env: Environment, r: nat, answer: LlmOutcome): seq<Event> {
    match answer
    case LlmError(message) => [ErrorEvent("LLM error: " + message)]
    case LlmTimeout => [ErrorEvent("LLM request timed out")]
    case Stream(items) =>
      if Clean(items) then DeltaEvents(items) + StartEvents(env.order(r, CallsOf(items)))
      else DeltaEvents(CleanPrefix(items)) + ErrorEvents(items)
  }

  /** A state after the last round, but for a done event. */
  function Last(env: Environment, maxTurns: nat, s: TurnState, r: nat): TurnState {
    var answer := Answer(env, maxTurns, s.history, r);
    TurnState(
      s.history + (if answer.Stream? && Clean(answer.items) then [Says(answer.items, None)] else []),
      s.events + [Status] + LastEvents(env, r, answer),
      s.requests + [RequestIn(env, maxTurns, s.history, r)],
      s.dispatched,
      if answer.Stream? then UsageOf(s.usage, CleanPrefix(answer.items)) else s.usage)
  }

  lemma LastRound(env: Environment, maxTurns: nat, s: TurnState, r: nat)
    requires r < maxTurns && !GoesOn(env, maxTurns, s.history, r)
    ensures var answer := Answer(env, maxTurns, s.history, r);
      var completed := Completes(env, maxTurns, r, answer); var last := Last(env, maxTurns, s, r);
      RoundOf(env, r, r + 1 == maxTurns, s) == RoundEnd(
        if completed then last.(events := last.events + [DoneEvent(last.usage)]) else last, true,
        if answer.Stream? then TextOf(CleanPrefix(answer.items)) else "", completed)
  {
    hide Clean, TextOf, ReasoningOf, CallsOf, UsageOf, DeltaEvents, EffectiveHistory, CallSteps, StartEvents;
    hide ErrorEvents, CleanPrefix;
    var answer := Answer(env, maxTurns, s.history, r);
    if answer.Stream? && Clean(answer.items) {
      CleanIsWhole(answer.items);
      NoReport(answer.items);
    }
  }

  /** How a turn ends: in the first round that does not go on, and complete exactly when that round completes it. */
  lemma TurnEndsIn(env: Environment, maxTurns: nat, history: seq<ChatMessage>, r: nat)
    requires EndsIn(env, maxTurns, history, r)
    ensures var s := Before(env, maxTurns, history, r);
      var answer, last := Answer(env, maxTurns, s.history, r), Last(env, maxTurns, s, r);
      var (t, result) := TurnOf(env, 0, maxTurns, Start(history));
      && result.turnsUsed == r + 1
      && (result.completed <==> Completes(env, maxTurns, r, answer))
      && result.response == (if answer.Stream? then TextOf(CleanPrefix(answer.items)) else "")
      && result.usage == last.usage
      && t == if result.completed then last.(events := last.events + [DoneEvent(last.usage)]) else last
  {
    RoundsGoOn(env, maxTurns, history, r);
    LastRound(env, maxTurns, Before(env, maxTurns, history, r), r);
    hide RoundOf, GoesOn, Before, Completes, Last, Answer;
  }

  /** Over all rounds: a turn completes exactly when the first round that does not go on completes it. */
  lemma CompletesIff(env: Environment, maxTurns: nat, history: seq<ChatMessage>)
    ensures TurnOf(env, 0, maxTurns, Start(history)).1.completed <==>
      exists r ::
        && EndsIn(env, maxTurns, history, r)
        && Completes(env, maxTurns, r, Answer(env, maxTurns, Before(env, maxTurns, history, r).history, r))
  {
    hide EndsIn, Completes, RoundOf;
    if maxTurns > 0 {
      var r := EndsSomewhere(env, maxTurns, history, 0);
      forall q | EndsIn(env, maxTurns, history, q)
        ensures TurnOf(env, 0, maxTurns, Start(history)).1.completed <==>
          Completes(env, maxTurns, q, Answer(env, maxTurns, Before(env, maxTurns, history, q).history, q))
      {
        TurnEndsIn(env, maxTurns, history, q);
      }
    } else {
      NothingEnds(env, history);
    }
  }

  lemma NothingEnds(env: Environment, history: seq<ChatMessage>)
    ensures forall r :: !EndsIn(env, 0, history, r)
  {
  }

  /** The chat task adds to a turn that did not complete a text and a done event without usage. */
  lemma ChatSays(env: Environment, maxTurns: nat, history: seq<ChatMessage>, r: nat)
    requires EndsIn(env, maxTurns, history, r)
    ensures var s := Before(env, maxTurns, history, r);
      var answer, last := Answer(env, maxTurns, s.history, r), Last(env, maxTurns, s, r);
      ChatOf(env, maxTurns, Start(history)) == last.(events := last.events +
        if Completes(env, maxTurns, r, answer) then [DoneEvent(last.usage)]
        else [TextDelta(FALLBACK), DoneEvent(Some(Usage(0, 0, 0)))])
  {
    TurnEndsIn(env, maxTurns, history, r);
    hide TurnOf, EndsIn, Before, Completes, Last, Answer;
  }

  // ---- what the parts are ----

  /** The usage of a stream is that of its last end mark; without one it stays as it was. */
  lemma {:induction false} UsageIs(before: Option<Usage>, items: seq<StreamItem>, k: nat)
    requires k <= |items| && forall i :: k <= i < |items| ==> !items[i].Item? || !items[i].chunk.Done?
    ensures k == 0 ==> UsageOf(before, items) == before
    ensures k > 0 && items[k - 1].Item? && items[k - 1].chunk.Done? ==>
      UsageOf(before, items) == Some(items[k - 1].chunk.usage)
  {
    if k < |items| { UsageIs(before, items[..|items| - 1], k); }
  }

  /** The result message of a call: the tool's text, or what went wrong. */
  lemma ResultSays(env: Environment, round: nat, call: Call)
    ensures ResultOf(env, round, call) == ChatMessage(Tool,
      if Trim(call.name) == "" then "Error: tool call had empty name, skipped"
      else if Trim(call.arguments) == "" then "Error: tool call had empty arguments, skipped"
      else match env.tools(round, call)
        case ToolOk(text) => text
        case ToolFailed(message) => "Error: " + message
        case ToolTimeout => "Error: Tool call timed out",
      None, Some(call.id), None)
  {
  }

  lemma ContextSecond(h: seq<ChatMessage>, preContext: Option<ChatMessage>)
    ensures var messages := WithContext(h, preContext); var context := if preContext.Some? && h != [] then 1 else 0;
      && |messages| == |h| + context
      && (h != [] ==> messages[0] == h[0])
      && (context == 1 ==> messages[1] == preContext.value)
      && (forall i :: 1 <= i < |h| ==> messages[i + context] == h[i])
  {
  }

  /** What a request holds: the history, the context message second, and in the last round a hint at the end. */
  lemma RequestHolds(env: Environment, maxTurns: nat, h: seq<ChatMessage>, round: nat)
    ensures var messages := RequestIn(env, maxTurns, h, round).messages;
      var context := if env.preContext.Some? && h != [] then 1 else 0;
      var hint := if round + 1 == maxTurns then 1 else 0;
      && |messages| == |h| + context + hint
      && (h != [] ==> messages[0] == h[0])
      && (context == 1 ==> messages[1] == env.preContext.value)
      && (forall i :: 1 <= i < |h| ==> messages[i + context] == h[i])
      && (hint == 1 ==> messages[|h| + context] == ChatMessage(User, FORCED_FINAL_HINT, None, None, None))
  {
    ContextSecond(h, env.preContext);
    hide WithContext;
  }

  /** The first error of a stream is reported, and nothing after it. */
  lemma FirstErrorIsReported(items: seq<StreamItem>, k: nat)
    requires k < |items| && Clean(items[..k]) && !items[k].Item?
    ensures CleanPrefix(items) == items[..k]
    ensures ErrorEvents(items) == [ErrorEvent(
      if items[k].ItemError? then "Stream error: " + items[k].message
      else "LLM stream timed out. The response was too large or the connection was lost.")]
  {
    CleanPrefixIs(items, k);
  }
}
