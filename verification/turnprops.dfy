/** What holds of every agent turn, whatever the model and the tools answer. */
module TurnProps {
  import opened Options
  import opened Text
  import opened SseStream
  import opened ToolCalls
  import opened History
  import opened Turn

  // ---- the calls of a round ----

  function ResultOf(env: Environment, round: nat, tc: Call): ChatMessage {
    ToolResult(tc, if Trim(tc.name) == "" then EMPTY_NAME
                   else if Trim(tc.arguments) == "" then EMPTY_ARGUMENTS
                   else ResultText(env.tools(round, tc)))
  }

  function ResultsOf(env: Environment, round: nat, calls: seq<Call>): seq<ChatMessage> {
    seq(|calls|, i requires 0 <= i < |calls| => ResultOf(env, round, calls[i]))
  }

  function DispatchesOf(round: nat, calls: seq<Call>): seq<Dispatch> {
    if calls == [] then []
    else
      var n := |calls| - 1;
      DispatchesOf(round, calls[..n]) + (if Skipped(calls[n]) then [] else [Dispatch(round, calls[n])])
  }

  /** The reports that running some calls makes. */
  function Reports(env: Environment, dispatched: seq<Dispatch>): seq<Event> {
    seq(|dispatched|, i requires 0 <= i < |dispatched| =>
      ToolEnd(dispatched[i].call.name, ResultText(env.tools(dispatched[i].round, dispatched[i].call))))
  }

  /** A round's calls, their results, runs and reports added to a state. */
  function WithCalls(env: Environment, round: nat, s: TurnState, calls: seq<Call>): TurnState {
    s.(history := s.history + ResultsOf(env, round, calls),
       events := s.events + Reports(env, DispatchesOf(round, calls)),
       dispatched := s.dispatched + DispatchesOf(round, calls))
  }

  /** Each call gets its result message, in order; those not skipped are run once and reported once. */
  lemma {:induction false} CallStepsAre(env: Environment, round: nat, s: TurnState, calls: seq<Call>)
    ensures CallSteps(env, round, s, calls) == WithCalls(env, round, s, calls)
  {
    if calls == [] {
      assert s.history + [] == s.history && s.events + [] == s.events && s.dispatched + [] == s.dispatched;
    } else {
      hide WithCalls, CallStep;
      CallStepsAre(env, round, s, calls[..|calls| - 1]);
      OneCallMore(env, round, s, calls);
    }
  }

  lemma OneCallMore(env: Environment, round: nat, s: TurnState, calls: seq<Call>)
    requires calls != []
    ensures WithCalls(env, round, s, calls) ==
      CallStep(env, round, WithCalls(env, round, s, calls[..|calls| - 1]), calls[|calls| - 1])
  {
    var n := |calls| - 1;
    ResultsSnoc(env, round, calls);
    DispatchesSnoc(env, round, calls);
    hide DispatchesOf, ResultsOf, Reports;
    var now, d := WithCalls(env, round, s, calls[..n]), Dispatch(round, calls[n]);
    assert s.history + (ResultsOf(env, round, calls[..n]) + [ResultOf(env, round, calls[n])])
      == now.history + [ResultOf(env, round, calls[n])];
    if !Skipped(calls[n]) {
      var ds := DispatchesOf(round, calls[..n]);
      assert s.dispatched + (ds + [d]) == now.dispatched + [d];
      assert s.events + (Reports(env, ds) + [ReportOf(env, d)]) == now.events + [ReportOf(env, d)];
    }
  }

  function ReportOf(env: Environment, d: Dispatch): Event {
    ToolEnd(d.call.name, ResultText(env.tools(d.round, d.call)))
  }

  lemma ResultsSnoc(env: Environment, round: nat, calls: seq<Call>)
    requires calls != []
    ensures ResultsOf(env, round, calls) ==
      ResultsOf(env, round, calls[..|calls| - 1]) + [ResultOf(env, round, calls[|calls| - 1])]
  {
    hide ResultOf;
  }

  lemma DispatchesSnoc(env: Environment, round: nat, calls: seq<Call>)
    requires calls != []
    ensures var n := |calls| - 1; var ds, d := DispatchesOf(round, calls[..n]), Dispatch(round, calls[n]);
      && DispatchesOf(round, calls) == (if Skipped(calls[n]) then ds else ds + [d])
      && (!Skipped(calls[n]) ==> Reports(env, DispatchesOf(round, calls)) == Reports(env, ds) + [ReportOf(env, d)])
  {
    var n := |calls| - 1;
    ReportsSnoc(env, DispatchesOf(round, calls[..n]), Dispatch(round, calls[n]));
    hide Skipped, Reports;
  }

  lemma ReportsSnoc(env: Environment, ds: seq<Dispatch>, d: Dispatch)
    ensures Reports(env, ds + [d]) == Reports(env, ds) + [ToolEnd(d.call.name, ResultText(env.tools(d.round, d.call)))]
  {
  }

  lemma ReportsConcat(env: Environment, a: seq<Dispatch>, b: seq<Dispatch>)
    ensures Reports(env, a + b) == Reports(env, a) + Reports(env, b)
  {
  }

  lemma {:induction false} DispatchesAre(round: nat, calls: seq<Call>)
    ensures forall d :: d in DispatchesOf(round, calls) <==> d.round == round && d.call in calls && !Skipped(d.call)
  {
    hide Skipped;
    if calls != [] {
      DispatchesAre(round, calls[..|calls| - 1]);
      assert calls == calls[..|calls| - 1] + [calls[|calls| - 1]];
    }
  }

  // ---- what a round adds ----

  /** The messages that a round adds to the history. */
  function Added(env: Environment, round: nat, forcedFinal: bool, items: seq<StreamItem>): seq<ChatMessage> {
    var calls := env.order(round, CallsOf(items));
    if calls == [] || forcedFinal then [AskMessage(TextOf(items), ReasoningOf(items), [])]
    else [AskMessage(TextOf(items), ReasoningOf(items), calls)] + ResultsOf(env, round, calls)
  }

  /** The calls that a round runs. */
  function Ran(env: Environment, round: nat, forcedFinal: bool, s: TurnState): seq<Dispatch> {
    match env.provider(round, Asked(env, forcedFinal, s))
    case LlmError(_) => []
    case LlmTimeout => []
    case Stream(items) =>
      if !Clean(items) || forcedFinal then [] else DispatchesOf(round, env.order(round, CallsOf(items)))
  }

  lemma RoundHistory(env: Environment, round: nat, forcedFinal: bool, s: TurnState)
    ensures var outcome := env.provider(round, Asked(env, forcedFinal, s));
      RoundOf(env, round, forcedFinal, s).state.history == s.history +
        if outcome.Stream? && Clean(outcome.items) then Added(env, round, forcedFinal, outcome.items) else []
  {
    hide Clean, CleanPrefix, TextOf, ReasoningOf, CallsOf, UsageOf;
    hide DeltaEvents, ErrorEvents, StartEvents, CallSteps, EffectiveHistory;
    var outcome := env.provider(round, Asked(env, forcedFinal, s));
    if outcome.Stream? && Clean(outcome.items) {
      var calls := env.order(round, CallsOf(outcome.items));
      var read := AfterStream(s, Asked(env, forcedFinal, s), outcome.items);
      read := read.(events := read.events + StartEvents(calls));
      ConclusionHistory(env, round, forcedFinal, read, TextOf(outcome.items), ReasoningOf(outcome.items), calls);
    }
  }

  lemma ConclusionHistory(env: Environment, round: nat, forcedFinal: bool, s: TurnState, content: string,
      reasoning: string, calls: seq<Call>)
    ensures Conclusion(env, round, forcedFinal, s, content, reasoning, calls).state.history == s.history +
      if calls == [] || forcedFinal then [AskMessage(content, reasoning, [])]
      else [AskMessage(content, reasoning, calls)] + ResultsOf(env, round, calls)
  {
    var asked := s.(history := s.history + [AskMessage(content, reasoning, calls)], events := s.events + [Status]);
    CallStepsAre(env, round, asked, calls);
    hide CallSteps, ResultsOf, DispatchesOf, Reports;
  }

  /** One request a round; tools only when they were offered; a round without tools is the last. */
  lemma RoundRequests(env: Environment, round: nat, forcedFinal: bool, s: TurnState)
    ensures var end := RoundOf(env, round, forcedFinal, s);
      && end.state.requests == s.requests + [Asked(env, forcedFinal, s)]
      && end.state.dispatched == s.dispatched + Ran(env, round, forcedFinal, s)
      && (forcedFinal ==> end.stop)
  {
    hide Clean, CleanPrefix, TextOf, ReasoningOf, CallsOf, UsageOf;
    hide DeltaEvents, ErrorEvents, StartEvents, EffectiveHistory, Asked, CallSteps;
    var outcome := env.provider(round, Asked(env, forcedFinal, s));
    if outcome.Stream? {
      var calls := env.order(round, CallsOf(outcome.items));
      var read := AfterStream(s, Asked(env, forcedFinal, s), outcome.items);
      read := read.(events := read.events + StartEvents(calls));
      ConclusionDispatches(env, round, forcedFinal, read, TextOf(outcome.items), ReasoningOf(outcome.items), calls);
      hide Conclusion, DispatchesOf;
    }
  }

  lemma ConclusionDispatches(env: Environment, round: nat, forcedFinal: bool, s: TurnState, content: string,
      reasoning: string, calls: seq<Call>)
    ensures var end := Conclusion(env, round, forcedFinal, s, content, reasoning, calls);
      && end.state.requests == s.requests
      && end.state.dispatched == s.dispatched + (if forcedFinal then [] else DispatchesOf(round, calls))
      && (forcedFinal ==> end.stop)
  {
    var asked := s.(history := s.history + [AskMessage(content, reasoning, calls)], events := s.events + [Status]);
    CallStepsAre(env, round, asked, calls);
    hide CallSteps, Reports;
    if calls == [] { assert DispatchesOf(round, calls) == []; }
  }

  // ---- the budget ----

  /** At most `maxTurns` requests, tools withheld from the last one, and none run then. */
  lemma {:induction false} Budget(env: Environment, round: nat, maxTurns: nat, s: TurnState)
    requires round <= maxTurns
    ensures var (t, result) := TurnOf(env, round, maxTurns, s);
      && round <= result.turnsUsed <= maxTurns
      && |t.requests| == |s.requests| + (result.turnsUsed - round) && s.requests <= t.requests
      && (forall k :: |s.requests| <= k < |t.requests| ==>
            (t.requests[k].toolsOffered <==> round + (k - |s.requests|) + 1 < maxTurns))
      && s.dispatched <= t.dispatched
      && (forall k :: |s.dispatched| <= k < |t.dispatched| ==>
            round <= t.dispatched[k].round && t.dispatched[k].round + 1 < maxTurns)
    decreases maxTurns - round
  {
    hide RoundOf, Ran;
    if round < maxTurns {
      var last := round + 1 == maxTurns;
      RoundRequests(env, round, last, s);
      RanInRound(env, round, last, s);
      var end := RoundOf(env, round, last, s);
      if !end.stop { Budget(env, round + 1, maxTurns, end.state); }
    }
  }

  lemma RanInRound(env: Environment, round: nat, forcedFinal: bool, s: TurnState)
    ensures forall d :: d in Ran(env, round, forcedFinal, s) ==> d.round == round && !forcedFinal
  {
    var outcome := env.provider(round, Asked(env, forcedFinal, s));
    if outcome.Stream? { DispatchesAre(round, env.order(round, CallsOf(outcome.items))); }
    hide DispatchesOf, Skipped, CallsOf, Asked;
  }

  // ---- pairing ----

  /** The histories a turn may start from: a plain first message, as the system prompt is. */
  ghost predicate Sound(h: seq<ChatMessage>, preContext: Option<ChatMessage>) {
    WellPaired(h) && h != [] && Plain(h[0]) && (preContext.Some? ==> Plain(preContext.value))
  }

  lemma EffectivePaired(h: seq<ChatMessage>, preContext: Option<ChatMessage>, forcedFinal: bool)
    requires Sound(h, preContext)
    ensures WellPaired(EffectiveHistory(h, preContext, forcedFinal))
  {
    WithContextPaired(h, preContext);
    WellPairedPlain(TextMessage(User, FORCED_FINAL_HINT));
    WellPairedConcat(WithContext(h, preContext), if forcedFinal then [TextMessage(User, FORCED_FINAL_HINT)] else []);
  }

  lemma AddedPaired(env: Environment, round: nat, forcedFinal: bool, items: seq<StreamItem>)
    requires YieldsEntries(env)
    ensures WellPaired(Added(env, round, forcedFinal, items))
  {
    hide TextOf, ReasoningOf, CallsOf, ResultOf;
    CallsOfKeyed(items);
    var calls := env.order(round, CallsOf(items));
    assert Lists(calls, CallsOf(items));
    if calls == [] || forcedFinal {
      WellPairedPlain(AskMessage(TextOf(items), ReasoningOf(items), []));
    } else {
      var ask := AskMessage(TextOf(items), ReasoningOf(items), calls);
      ResultsAnswer(env, round, calls);
      assert WellPaired([]);
      WellPairedRound([], ask, ResultsOf(env, round, calls));
      assert [] + [ask] + ResultsOf(env, round, calls) == [ask] + ResultsOf(env, round, calls);
    }
  }

  lemma ResultsAnswer(env: Environment, round: nat, calls: seq<Call>)
    ensures Answered(calls, ResultsOf(env, round, calls))
  {
  }

  lemma RoundPaired(env: Environment, round: nat, forcedFinal: bool, s: TurnState)
    requires YieldsEntries(env) && Sound(s.history, env.preContext)
    ensures Sound(RoundOf(env, round, forcedFinal, s).state.history, env.preContext)
    ensures WellPaired(Asked(env, forcedFinal, s).messages)
  {
    EffectivePaired(s.history, env.preContext, forcedFinal);
    RoundHistory(env, round, forcedFinal, s);
    hide RoundOf, Clean, Added, WellPaired, Plain;
    var outcome := env.provider(round, Asked(env, forcedFinal, s));
    if outcome.Stream? && Clean(outcome.items) {
      AddedPaired(env, round, forcedFinal, outcome.items);
      WellPairedConcat(s.history, Added(env, round, forcedFinal, outcome.items));
    } else {
      assert s.history + [] == s.history;
    }
  }

  /** Every history sent to the model and the final history are well paired, on every path. */
  lemma {:induction false} AlwaysPaired(env: Environment, round: nat, maxTurns: nat, s: TurnState)
    requires YieldsEntries(env) && Sound(s.history, env.preContext)
    requires forall r :: r in s.requests ==> WellPaired(r.messages)
    ensures var t := TurnOf(env, round, maxTurns, s).0;
      Sound(t.history, env.preContext) && forall r :: r in t.requests ==> WellPaired(r.messages)
    decreases maxTurns - round
  {
    hide RoundOf, Ran, WellPaired, YieldsEntries, Sound, Asked;
    if round < maxTurns {
      var last := round + 1 == maxTurns;
      RoundRequests(env, round, last, s);
      RoundPaired(env, round, last, s);
      var end := RoundOf(env, round, last, s);
      if !end.stop { AlwaysPaired(env, round + 1, maxTurns, end.state); }
    }
  }

  // ---- the events ----

  ghost predicate NoDone(events: seq<Event>) {
    forall e :: e in events ==> !e.DoneEvent?
  }

  /** Exactly one done event, and it is the last. */
  ghost predicate EndsWithDone(events: seq<Event>) {
    events != [] && events[|events| - 1].DoneEvent? && NoDone(events[..|events| - 1])
  }

  /** The text sent since the last status line. */
  function Streamed(events: seq<Event>): string {
    if events == [] then ""
    else
      var last := events[|events| - 1];
      if last.Status? then "" else Streamed(events[..|events| - 1]) + (if last.TextDelta? then last.text else "")
  }

  function EndReports(events: seq<Event>): seq<Event> {
    if events == [] then []
    else EndReports(events[..|events| - 1]) + (if events[|events| - 1].ToolEnd? then [events[|events| - 1]] else [])
  }

  /** Neither text nor status nor done. */
  ghost predicate Quiet(events: seq<Event>) {
    forall e :: e in events ==> !e.Status? && !e.TextDelta? && !e.DoneEvent?
  }

  lemma {:induction false} QuietAddsNoText(a: seq<Event>, b: seq<Event>)
    requires Quiet(b)
    ensures Streamed(a + b) == Streamed(a)
  {
    if b == [] {
      assert a + b == a;
    } else {
      var n := |b| - 1;
      assert (a + b)[..|a| + n] == a + b[..n] && b[n] in b;
      QuietAddsNoText(a, b[..n]);
    }
  }

  lemma {:induction false} DeltasAreTexts(items: seq<StreamItem>)
    ensures forall e :: e in DeltaEvents(items) ==> e.TextDelta?
  {
    if items != [] { DeltasAreTexts(items[..|items| - 1]); }
  }

  lemma StreamedSnoc(events: seq<Event>, e: Event)
    ensures Streamed(events + [e]) == if e.Status? then "" else Streamed(events) + if e.TextDelta? then e.text else ""
  {
  }

  lemma {:induction false} DeltasStream(a: seq<Event>, items: seq<StreamItem>)
    ensures Streamed(a + [Status] + DeltaEvents(items)) == TextOf(items)
  {
    hide Streamed;
    if items == [] {
      assert a + [Status] + [] == a + [Status];
      StreamedSnoc(a, Status);
    } else {
      var init, last := items[..|items| - 1], items[|items| - 1];
      DeltasStream(a, init);
      if last.Item? && last.chunk.Delta? {
        StreamedSnoc(a + [Status] + DeltaEvents(init), TextDelta(last.chunk.text));
        assert DeltaEvents(items) == DeltaEvents(init) + [TextDelta(last.chunk.text)];
        assert a + [Status] + DeltaEvents(items) == a + [Status] + DeltaEvents(init) + [TextDelta(last.chunk.text)];
      } else {
        assert DeltaEvents(items) == DeltaEvents(init);
        assert TextOf(items) == TextOf(init);
      }
    }
  }

  lemma {:induction false} EndReportsConcat(a: seq<Event>, b: seq<Event>)
    ensures EndReports(a + b) == EndReports(a) + EndReports(b)
  {
    if b == [] {
      assert a + b == a;
    } else {
      var n := |b| - 1;
      assert (a + b)[..|a| + n] == a + b[..n];
      EndReportsConcat(a, b[..n]);
    }
  }

  lemma {:induction false} NoEnds(events: seq<Event>)
    requires forall e :: e in events ==> !e.ToolEnd?
    ensures EndReports(events) == []
  {
    if events != [] {
      assert events[|events| - 1] in events;
      NoEnds(events[..|events| - 1]);
    }
  }

  lemma {:induction false} ReportsAreEnds(events: seq<Event>)
    requires forall e :: e in events ==> e.ToolEnd?
    ensures EndReports(events) == events && Quiet(events)
  {
    if events != [] {
      assert events[|events| - 1] in events;
      ReportsAreEnds(events[..|events| - 1]);
      assert events == events[..|events| - 1] + [events[|events| - 1]];
    }
  }

  lemma ErrorsAreQuiet(items: seq<StreamItem>)
    ensures Quiet(ErrorEvents(items)) && EndReports(ErrorEvents(items)) == []
    ensures Clean(items) ==> ErrorEvents(items) == []
  {
  }

  lemma StartsAreQuiet(calls: seq<Call>)
    ensures Quiet(StartEvents(calls)) && EndReports(StartEvents(calls)) == []
  {
    NoEnds(StartEvents(calls));
  }

  /** The events of a round up to the end of its stream. */
  lemma StreamEvents(s: TurnState, request: Request, items: seq<StreamItem>)
    ensures var t := AfterStream(s, request, items);
      && Streamed(t.events) == TextOf(CleanPrefix(items))
      && EndReports(t.events) == EndReports(s.events)
      && (NoDone(s.events) ==> NoDone(t.events))
  {
    hide CleanPrefix, ErrorEvents, DeltaEvents, TextOf;
    var read := CleanPrefix(items);
    DeltasStream(s.events, read);
    DeltasAreTexts(read);
    NoEnds(DeltaEvents(read));
    ErrorsAreQuiet(items);
    QuietAddsNoText(s.events + [Status] + DeltaEvents(read), ErrorEvents(items));
    EndReportsConcat(s.events + [Status] + DeltaEvents(read), ErrorEvents(items));
    EndReportsConcat(s.events + [Status], DeltaEvents(read));
    EndReportsConcat(s.events, [Status]);
    NoEnds([Status]);
  }

  /** What a round's end owes to the state before its stream was concluded. */
  ghost predicate EndsWell(env: Environment, dispatched: seq<Dispatch>, s: TurnState, end: RoundEnd) {
    && (if end.completed then EndsWithDone(end.state.events) && end.stop else NoDone(end.state.events))
    && (end.stop ==> Streamed(end.state.events) == end.response)
    && EndReports(end.state.events) == EndReports(s.events) + Reports(env, dispatched)
  }

  lemma DoneEnds(events: seq<Event>, usage: Option<Usage>)
    requires NoDone(events)
    ensures var all := events + [DoneEvent(usage)];
      EndsWithDone(all) && Streamed(all) == Streamed(events) && EndReports(all) == EndReports(events)
  {
  }

  lemma ConclusionEvents(env: Environment, round: nat, forcedFinal: bool, s: TurnState, content: string,
      reasoning: string, calls: seq<Call>)
    requires NoDone(s.events) && Streamed(s.events) == content
    ensures EndsWell(env, if forcedFinal then [] else DispatchesOf(round, calls), s,
                     Conclusion(env, round, forcedFinal, s, content, reasoning, calls))
  {
    hide Streamed, EndReports;
    DoneEnds(s.events, s.usage);
    if calls == [] || forcedFinal {
      hide CallSteps;
      assert Reports(env, []) == [];
      if calls == [] { assert DispatchesOf(round, calls) == []; }
    } else {
      var asked := s.(history := s.history + [AskMessage(content, reasoning, calls)], events := s.events + [Status]);
      CallStepsAre(env, round, asked, calls);
      hide CallSteps, ResultsOf, EndsWithDone, DispatchesOf;
      var reports := Reports(env, DispatchesOf(round, calls));
      ReportsAreEnds(reports);
      EndReportsConcat(s.events + [Status], reports);
      EndReportsConcat(s.events, [Status]);
      NoEnds([Status]);
    }
  }

  lemma CleanStreamEvents(env: Environment, round: nat, forcedFinal: bool, s: TurnState, request: Request,
      items: seq<StreamItem>)
    requires NoDone(s.events) && Clean(items)
    ensures var calls := env.order(round, CallsOf(items)); var read := AfterStream(s, request, items);
      EndsWell(env, if forcedFinal then [] else DispatchesOf(round, calls), s,
               Conclusion(env, round, forcedFinal, read.(events := read.events + StartEvents(calls)),
                          TextOf(items), ReasoningOf(items), calls))
  {
    hide CleanPrefix, TextOf, ReasoningOf, CallsOf, Conclusion, AfterStream, Clean, StartEvents, Streamed, EndReports;
    hide DispatchesOf, NoDone;
    var read, calls := AfterStream(s, request, items), env.order(round, CallsOf(items));
    AnnouncedEvents(s, request, items, calls);
    ConclusionEvents(env, round, forcedFinal, read.(events := read.events + StartEvents(calls)),
                     TextOf(items), ReasoningOf(items), calls);
  }

  /** The events of a round up to the announcement of its calls. */
  lemma AnnouncedEvents(s: TurnState, request: Request, items: seq<StreamItem>, calls: seq<Call>)
    requires NoDone(s.events) && Clean(items)
    ensures var events := AfterStream(s, request, items).events + StartEvents(calls);
      NoDone(events) && Streamed(events) == TextOf(items) && EndReports(events) == EndReports(s.events)
  {
    hide TextOf, Streamed, EndReports, StartEvents;
    StreamEvents(s, request, items);
    CleanIsWhole(items);
    hide AfterStream, Clean, CleanPrefix;
    var read, starts := AfterStream(s, request, items), StartEvents(calls);
    StartsAreQuiet(calls);
    QuietAddsNoText(read.events, starts);
    EndReportsConcat(read.events, starts);
    assert EndReports(read.events) + [] == EndReports(read.events);
  }

  lemma RoundEvents(env: Environment, round: nat, forcedFinal: bool, s: TurnState)
    requires NoDone(s.events)
    ensures EndsWell(env, Ran(env, round, forcedFinal, s), s, RoundOf(env, round, forcedFinal, s))
  {
    hide Clean, CleanPrefix, TextOf, ReasoningOf, CallsOf, UsageOf, DeltaEvents;
    hide ErrorEvents, StartEvents, Conclusion, Asked, Streamed, EndReports;
    var request := Asked(env, forcedFinal, s);
    match env.provider(round, request)
    case LlmError(message) => FailedCall(env, s, "LLM error: " + message);
    case LlmTimeout => FailedCall(env, s, "LLM request timed out");
    case Stream(items) =>
      if Clean(items) {
        hide EndsWell, AfterStream;
        CleanStreamEvents(env, round, forcedFinal, s, request, items);
      } else {
        StreamEvents(s, request, items);
        assert Reports(env, []) == [];
      }
  }

  lemma FailedCall(env: Environment, s: TurnState, message: string)
    ensures var events := s.events + [Status] + [ErrorEvent(message)];
      && Streamed(events) == "" && EndReports(events) == EndReports(s.events) + Reports(env, [])
      && (NoDone(s.events) ==> NoDone(events))
  {
  }

  /**
   * Done is signalled exactly once, as the last event, exactly when the turn completed. The text streamed
   * in the last round is the response. Each call that was run is reported once, with its result, in order.
   */
  lemma {:induction false} TurnEvents(env: Environment, round: nat, maxTurns: nat, s: TurnState)
    requires round < maxTurns && NoDone(s.events) && EndReports(s.events) == Reports(env, s.dispatched)
    ensures var (t, result) := TurnOf(env, round, maxTurns, s);
      && (if result.completed then EndsWithDone(t.events) else NoDone(t.events))
      && Streamed(t.events) == result.response
      && EndReports(t.events) == Reports(env, t.dispatched)
    decreases maxTurns - round
  {
    hide RoundOf, Ran, Streamed, EndReports, Reports, NoDone, EndsWithDone;
    var last := round + 1 == maxTurns;
    RoundEvents(env, round, last, s);
    RoundRequests(env, round, last, s);
    ReportsConcat(env, s.dispatched, Ran(env, round, last, s));
    var end := RoundOf(env, round, last, s);
    if !end.stop { TurnEvents(env, round + 1, maxTurns, end.state); }
  }

  // ---- the answer ----

  /** The last message is the answer, and asks for nothing more. */
  predicate AnswersWith(h: seq<ChatMessage>, response: string) {
    h != [] && h[|h| - 1].role == Assistant && h[|h| - 1].toolCalls == None && h[|h| - 1].content == response
  }

  lemma RoundAnswers(env: Environment, round: nat, forcedFinal: bool, s: TurnState)
    ensures var end := RoundOf(env, round, forcedFinal, s); end.completed ==>
      AnswersWith(end.state.history, end.response)
  {
  }

  /** A completed turn leaves its response as the last message. */
  lemma {:induction false} TurnAnswers(env: Environment, round: nat, maxTurns: nat, s: TurnState)
    ensures var (t, result) := TurnOf(env, round, maxTurns, s); result.completed ==>
      AnswersWith(t.history, result.response)
    decreases maxTurns - round
  {
    hide RoundOf, AnswersWith;
    if round < maxTurns {
      var last := round + 1 == maxTurns;
      RoundAnswers(env, round, last, s);
      var end := RoundOf(env, round, last, s);
      if !end.stop { TurnAnswers(env, round + 1, maxTurns, end.state); }
    }
  }

  // ---- no call is run twice ----

  ghost predicate Distinct(ds: seq<Dispatch>) {
    forall i, j :: 0 <= i < j < |ds| ==> ds[i].round != ds[j].round || ds[i].call.id != ds[j].call.id
  }

  lemma {:induction false} DispatchesDistinct(round: nat, calls: seq<Call>)
    requires DistinctIds(calls)
    ensures Distinct(DispatchesOf(round, calls))
  {
    hide Skipped;
    if calls != [] {
      var n := |calls| - 1;
      DispatchesDistinct(round, calls[..n]);
      DispatchesAre(round, calls[..n]);
      forall c | c in calls[..n] ensures c.id != calls[n].id {}
      assert forall d :: d in DispatchesOf(round, calls[..n]) ==> d.call in calls[..n];
    }
  }

  lemma RanDistinct(env: Environment, round: nat, forcedFinal: bool, s: TurnState)
    requires YieldsEntries(env)
    ensures Distinct(Ran(env, round, forcedFinal, s))
  {
    hide DispatchesOf, Asked, CallsOf;
    var outcome := env.provider(round, Asked(env, forcedFinal, s));
    if outcome.Stream? {
      CallsOfKeyed(outcome.items);
      assert Lists(env.order(round, CallsOf(outcome.items)), CallsOf(outcome.items));
      DispatchesDistinct(round, env.order(round, CallsOf(outcome.items)));
    }
  }

  lemma {:induction false} NoCallTwice(env: Environment, round: nat, maxTurns: nat, s: TurnState)
    requires YieldsEntries(env) && Distinct(s.dispatched) && forall d :: d in s.dispatched ==> d.round < round
    ensures Distinct(TurnOf(env, round, maxTurns, s).0.dispatched)
    decreases maxTurns - round
  {
    hide RoundOf, Ran, YieldsEntries;
    if round < maxTurns {
      var last := round + 1 == maxTurns;
      RoundRequests(env, round, last, s);
      RanDistinct(env, round, last, s);
      RanInRound(env, round, last, s);
      var end := RoundOf(env, round, last, s);
      if !end.stop { NoCallTwice(env, round + 1, maxTurns, end.state); }
    }
  }

  // ---- from the start ----

  function Start(history: seq<ChatMessage>): TurnState {
    TurnState(history, [], [], [], None)
  }

  /** The event log of an unaborted chat task has exactly one done event, and it is the last. */
  lemma ChatEndsWithDone(env: Environment, maxTurns: nat, history: seq<ChatMessage>)
    ensures EndsWithDone(ChatOf(env, maxTurns, Start(history)).events)
  {
    hide TurnOf, NoDone, EndReports;
    var s := Start(history);
    var (t, result) := TurnOf(env, 0, maxTurns, s);
    assert NoDone(s.events) && EndReports(s.events) == Reports(env, s.dispatched) by { StartIsQuiet(env, history); }
    if maxTurns > 0 { TurnEvents(env, 0, maxTurns, s); } else { NoRounds(env, s); }
    if !result.completed { FallbackEnds(t.events); }
  }

  lemma StartIsQuiet(env: Environment, history: seq<ChatMessage>)
    ensures NoDone(Start(history).events)
    ensures EndReports(Start(history).events) == Reports(env, Start(history).dispatched)
  {
  }

  lemma NoRounds(env: Environment, s: TurnState)
    ensures TurnOf(env, 0, 0, s) == (s, TurnResult("", s.usage, 0, false))
  {
  }

  lemma FallbackEnds(events: seq<Event>)
    requires NoDone(events)
    ensures EndsWithDone(events + [TextDelta(FALLBACK), DoneEvent(Some(NO_USAGE))])
  {
  }
}
