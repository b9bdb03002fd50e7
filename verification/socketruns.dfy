/** The socket manager in every order of calls, timer expiries and platform callbacks. */
module SocketRuns {
  import opened Options
  import opened Socket

  datatype Action =
    | CallConnect(url: string, newTask: TaskId)
    | CallClose
    | CallEnsureConnected(newTask: TaskId)
    | CallSend(text: string, fails: bool)
    | TaskOpens(t: TaskId, throws: seq<bool>)
    | TaskErrs(t: TaskId)
    | TaskCloses(t: TaskId)
    | TimerExpires(newTask: TaskId)

  /** The platform hands out new tasks, and calls back open and close of a task once, close last. */
  predicate Enabled(s: State, a: Action) {
    match a
    case CallConnect(_, n) => n !in s.phases
    case CallClose => true
    case CallEnsureConnected(n) => n !in s.phases
    case CallSend(_, _) => true
    case TaskOpens(t, _) => t in s.phases && s.phases[t].Connecting?
    case TaskErrs(t) => t in s.phases && !s.phases[t].Closed?
    case TaskCloses(t) => t in s.phases && !s.phases[t].Closed?
    case TimerExpires(n) => s.timer && n !in s.phases
  }

  function Do(s: State, a: Action): State {
    match a
    case CallConnect(url, n) => Connect(s, url, n)
    case CallClose => Close(s)
    case CallEnsureConnected(n) => EnsureConnected(s, n)
    case CallSend(text, fails) => Send(s, text, fails)
    case TaskOpens(t, throws) => OnOpen(s, t, throws)
    case TaskErrs(t) => OnError(s, t)
    case TaskCloses(t) => OnClose(s, t)
    case TimerExpires(n) => TimerFires(s, n)
  }

  function Run(actions: seq<Action>): Option<State> {
    if actions == [] then Some(START)
    else
      match Run(actions[..|actions| - 1])
      case Some(s) => if Enabled(s, actions[|actions| - 1]) then Some(Do(s, actions[|actions| - 1])) else None
      case None => None
  }

  lemma ConsistentKept(s: State, a: Action)
    requires Consistent(s) && Enabled(s, a)
    ensures Consistent(Do(s, a))
  {
    hide Consistent, Connect, Close, EnsureConnected, Send, OnOpen, OnError, OnClose, TimerFires;
    match a
    case CallConnect(url, n) => ConnectConsistent(s, url, n);
    case CallClose => CloseConsistent(s);
    case CallEnsureConnected(n) => EnsureConnectedConsistent(s, n);
    case CallSend(text, fails) => SendConsistent(s, text, fails);
    case TaskOpens(t, throws) => OnOpenConsistent(s, t, throws);
    case TaskErrs(t) => OnErrorConsistent(s, t);
    case TaskCloses(t) => OnCloseConsistent(s, t);
    case TimerExpires(n) => TimerFiresConsistent(s, n);
  }

  /**
   * Every reachable state: a manually closed manager has no task and no timer; a pending timer means neither open
   * nor connecting; and a manager that was not closed by hand never stops trying: it is open, or a reconnection
   * is pending, or the platform still owes it the open or the close of its task.
   */
  lemma {:induction false} ConnectionStates(actions: seq<Action>)
    requires Run(actions).Some?
    ensures var s := Run(actions).value;
      && Consistent(s)
      && (s.manualClosed ==> s.task.None? && !s.timer && !s.open && !s.connecting)
      && (s.timer ==> !s.open && !s.connecting)
      && (!s.manualClosed ==> s.open || s.timer || s.phases[s.task.value].Connecting?)
  {
    if actions != [] {
      ConnectionStates(actions[..|actions| - 1]);
      ConsistentKept(Run(actions[..|actions| - 1]).value, actions[|actions| - 1]);
    }
  }

  // ---- what the calls and callbacks do, field by field ----

  /** `connect` keeps a connection that is open or being made to the same address, and else makes a new one. */
  lemma ConnectIs(s: State, url: string, n: TaskId)
    ensures Connect(s, url, n) ==
      if s.task.Some? && s.url == url && (s.open || s.connecting) then s.(timer := false, attempts := 0)
      else s.(task := Some(n), url := url, params := Some(url), open := false, connecting := true,
              manualClosed := false, timer := false, attempts := 0, phases := s.phases[n := Connecting(url)])
  {
  }

  /** `ensureConnected` and the timer connect again, with the same parameters; the timer counts its attempts. */
  lemma ReconnectIs(s: State, n: TaskId)
    requires Consistent(s) && n !in s.phases && s.params.Some?
    ensures EnsureConnected(s, n) ==
      if s.open || s.connecting then s else Connect(s, s.params.value, n).(attempts := s.attempts)
    ensures s.timer ==> TimerFires(s, n) == Connect(s, s.params.value, n).(attempts := s.attempts + 1)
  {
  }

  /** `close` drops the connection and everything queued; `ensureConnected` then does nothing. */
  lemma CloseIs(s: State, n: TaskId)
    ensures Close(s) == s.(task := None, params := None, open := false, connecting := false, manualClosed := true,
                           timer := false, attempts := 0, outbox := [])
    ensures EnsureConnected(Close(s), n) == Close(s)
  {
  }

  /** The callbacks of the current task: its open, its error, and its close, which schedules a reconnection. */
  lemma CallbacksAre(s: State, t: TaskId, throws: seq<bool>)
    requires Consistent(s) && s.task == Some(t)
    ensures OnOpen(s, t, throws) ==
      Transmit(s.(open := true, connecting := false, attempts := 0, outbox := [],
                  phases := s.phases[t := Opened(s.phases[t].address)]), Passed(s.outbox, throws))
    ensures OnError(s, t) == s.(connecting := false)
    ensures OnClose(s, t) ==
      s.(open := false, connecting := false, timer := true, phases := s.phases[t := Closed(s.phases[t].address)])
  {
    hide Passed;
  }

  /** How many times the timer has expired since the last `connect`, `close` or open of the current task. */
  function Expiries(actions: seq<Action>): nat {
    if actions == [] then 0
    else
      var init, last := actions[..|actions| - 1], actions[|actions| - 1];
      if last.CallConnect? || last.CallClose? then 0
      else if last.TaskOpens? && Run(init).Some? && Run(init).value.task == Some(last.t) then 0
      else Expiries(init) + if last.TimerExpires? then 1 else 0
  }

  /** In every run the attempts counted, which set the delay and are shown to the user, are these. */
  lemma {:induction false} AttemptsAre(actions: seq<Action>)
    requires Run(actions).Some?
    ensures Run(actions).value.attempts == Expiries(actions)
  {
    if actions != [] {
      var init, last := actions[..|actions| - 1], actions[|actions| - 1];
      AttemptsAre(init);
      ConnectionStates(init);
      StepAttempts(Run(init).value, last);
      hide Do, Consistent, Enabled;
    }
  }

  lemma StepAttempts(s: State, a: Action)
    requires Consistent(s) && Enabled(s, a)
    ensures Do(s, a).attempts ==
      if a.CallConnect? || a.CallClose? || (a.TaskOpens? && s.task == Some(a.t)) then 0
      else s.attempts + if a.TimerExpires? then 1 else 0
  {
    hide Passed, Copies, AddressOf;
  }

  predicate CallbackOf(a: Action, t: TaskId) {
    (a.TaskOpens? || a.TaskErrs? || a.TaskCloses?) && a.t == t
  }

  predicate LetGo(s: State, t: TaskId) {
    t in s.phases && s.task != Some(t)
  }

  lemma LetGoKept(s: State, a: Action, t: TaskId)
    requires Consistent(s) && Enabled(s, a) && LetGo(s, t)
    ensures LetGo(Do(s, a), t)
  {
  }

  lemma RunLast(actions: seq<Action>, more: seq<Action>)
    requires more != [] && Run(actions + more).Some?
    ensures var init, a := more[..|more| - 1], more[|more| - 1];
      Run(actions + init).Some? && Enabled(Run(actions + init).value, a)
      && Run(actions + more) == Some(Do(Run(actions + init).value, a))
  {
    hide Do, Enabled;
    var all := actions + more;
    assert all[..|all| - 1] == actions + more[..|more| - 1];
  }

  lemma {:induction false} LetGoForGood(actions: seq<Action>, more: seq<Action>, t: TaskId)
    requires Run(actions + more).Some? && Run(actions).Some? && LetGo(Run(actions).value, t)
    ensures LetGo(Run(actions + more).value, t)
  {
    hide LetGo, Consistent, Enabled, Do;
    if more == [] {
      assert actions + more == actions;
    } else {
      RunLast(actions, more);
      LetGoForGood(actions, more[..|more| - 1], t);
      ConnectionStates(actions + more[..|more| - 1]);
      hide Run;
      LetGoKept(Run(actions + more[..|more| - 1]).value, more[|more| - 1], t);
    }
  }

  /** Once the manager has let go of a task, no callback of it changes the manager, however late it comes. */
  lemma StaleTaskIgnored(actions: seq<Action>, more: seq<Action>, t: TaskId, callback: Action)
    requires Run(actions + more).Some? && Run(actions).Some? && LetGo(Run(actions).value, t)
    requires CallbackOf(callback, t) && Enabled(Run(actions + more).value, callback)
    ensures var s := Run(actions + more).value; Do(s, callback).(phases := s.phases) == s
  {
    LetGoForGood(actions, more, t);
  }

  // ---- what happens to what is sent ----

  predicate Throws(a: Action) {
    (a.CallSend? && a.fails) || (a.TaskOpens? && true in a.throws)
  }

  predicate NoThrow(actions: seq<Action>) {
    forall a :: a in actions ==> !Throws(a)
  }

  ghost predicate Subsequence(a: seq<Payload>, b: seq<Payload>)
    decreases b
  {
    if a == [] then true
    else if b == [] then false
    else
      var (x, y) := (a[|a| - 1], b[|b| - 1]);
      (x == y && Subsequence(a[..|a| - 1], b[..|b| - 1])) || Subsequence(a, b[..|b| - 1])
  }

  lemma SubsequenceGrows(a: seq<Payload>, b: seq<Payload>, x: Payload)
    requires Subsequence(a, b)
    ensures Subsequence(a, b + [x]) && Subsequence(a + [x], b + [x])
  {
  }

  lemma {:induction false} SubsequencePrefix(a: seq<Payload>, more: seq<Payload>, b: seq<Payload>)
    requires Subsequence(a + more, b)
    ensures Subsequence(a, b)
    decreases b
  {
    if a != [] {
      var last := |a + more| - 1;
      if more == [] {
        assert a + more == a;
      } else if Subsequence(a + more, b[..|b| - 1]) {
        SubsequencePrefix(a, more, b[..|b| - 1]);
        SubsequenceGrows(a, b[..|b| - 1], b[|b| - 1]);
        assert b[..|b| - 1] + [b[|b| - 1]] == b;
      } else {
        assert (a + more)[..last] == a + more[..|more| - 1];
        SubsequencePrefix(a, more[..|more| - 1], b[..|b| - 1]);
        SubsequenceGrows(a, b[..|b| - 1], b[|b| - 1]);
        assert b[..|b| - 1] + [b[|b| - 1]] == b;
      }
    }
  }

  lemma {:induction false} AllPass(payloads: seq<Payload>, throws: seq<bool>)
    requires true !in throws
    ensures Passed(payloads, throws) == payloads
    decreases payloads
  {
    if payloads != [] {
      AllPass(payloads[1..], if throws == [] then [] else throws[1..]);
    }
  }

  function Kept(s: State): seq<Payload> {
    s.log.transmitted + s.outbox
  }

  ghost predicate InOrder(s: State) {
    Subsequence(Kept(s), s.log.submitted) && (s.open ==> s.outbox == [])
  }

  /** What a send submits. */
  function Submits(s: State, a: Action): seq<Payload> {
    if a.CallSend? then [Payload(a.text, s.url, |s.log.submitted|)] else []
  }

  /** What a step transmits. */
  function Transmits(s: State, a: Action): seq<Payload> {
    if a.TaskOpens? && s.task == Some(a.t) then Passed(s.outbox, a.throws)
    else if a.CallSend? && s.open && s.task.Some? && !a.fails then Submits(s, a)
    else []
  }

  /** What a step leaves queued. */
  function Queues(s: State, a: Action): seq<Payload> {
    if a.CallClose? || (a.TaskOpens? && s.task == Some(a.t)) then []
    else if a.CallSend? && !(s.open && s.task.Some? && !a.fails) && |s.outbox| < MAX_OUTBOX
    then s.outbox + Submits(s, a)
    else s.outbox
  }

  function CurrentAddress(s: State): string {
    if s.task.Some? then AddressOf(s.phases, s.task.value) else ""
  }

  /** What a step does to the payloads, and nothing else. */
  ghost predicate Moves(s: State, r: State, submits: seq<Payload>, transmits: seq<Payload>, queues: seq<Payload>) {
    && r.outbox == queues
    && r.log.submitted == s.log.submitted + submits && r.log.transmitted == s.log.transmitted + transmits
    && r.log.wires == s.log.wires + Copies(CurrentAddress(s), |transmits|)
  }

  lemma MovesNothing(s: State, r: State)
    requires r.log == s.log
    ensures Moves(s, r, [], [], r.outbox)
  {
    assert s.log.submitted + [] == s.log.submitted && s.log.transmitted + [] == s.log.transmitted;
    assert s.log.wires + Copies(CurrentAddress(s), 0) == s.log.wires;
  }

  lemma SendMoves(s: State, text: string, fails: bool)
    ensures Moves(s, Send(s, text, fails), Submits(s, CallSend(text, fails)), Transmits(s, CallSend(text, fails)),
                  Queues(s, CallSend(text, fails)))
  {
    hide AddressOf;
    assert s.log.transmitted + [] == s.log.transmitted;
    assert s.log.wires + Copies(CurrentAddress(s), 0) == s.log.wires;
  }

  lemma OnOpenMoves(s: State, t: TaskId, throws: seq<bool>)
    ensures Moves(s, OnOpen(s, t, throws), [], if s.task == Some(t) then Passed(s.outbox, throws) else [],
                  if s.task == Some(t) then [] else s.outbox)
  {
    hide Passed, Copies;
    if s.task != Some(t) { MovesNothing(s, OnOpen(s, t, throws)); }
    assert s.log.submitted + [] == s.log.submitted;
  }

  lemma StepMoves(s: State, a: Action)
    ensures Moves(s, Do(s, a), Submits(s, a), Transmits(s, a), Queues(s, a))
  {
    hide Open, Passed, Send, OnOpen, Moves;
    match a
    case CallConnect(_, _) => MovesNothing(s, Do(s, a));
    case CallClose => MovesNothing(s, Do(s, a));
    case CallEnsureConnected(_) => MovesNothing(s, Do(s, a));
    case CallSend(text, fails) => SendMoves(s, text, fails);
    case TaskOpens(t, throws) => OnOpenMoves(s, t, throws);
    case TaskErrs(_) => MovesNothing(s, Do(s, a));
    case TaskCloses(_) => MovesNothing(s, Do(s, a));
    case TimerExpires(_) => MovesNothing(s, Do(s, a));
  }

  /** Opening the task of the manager, or a send that does not fail, leaves an open manager with nothing queued. */
  lemma OpenMeansEmpty(s: State, a: Action)
    requires Consistent(s) && Enabled(s, a) && !Throws(a) && (s.open ==> s.outbox == [])
    ensures Do(s, a).open ==> Do(s, a).outbox == []
  {
    StepMoves(s, a);
    hide Passed, Copies, AddressOf, Send, Transmit;
    SendOpens(s);
  }

  lemma SendOpens(s: State)
    ensures forall text, fails :: Send(s, text, fails).open == s.open
  {
  }

  /** Apart from `close` and a send onto a full outbox, a step keeps every payload, in order. */
  lemma StepKeeps(s: State, a: Action)
    requires Consistent(s) && Enabled(s, a) && !Throws(a) && (s.open ==> s.outbox == []) && |s.outbox| <= MAX_OUTBOX
    ensures var s' := Do(s, a);
      && (s'.open ==> s'.outbox == [])
      && s'.log.submitted == s.log.submitted + Submits(s, a)
      && Kept(s') ==
           if a.CallClose? then s.log.transmitted
           else if a.CallSend? && !s.open && |s.outbox| == 50 then Kept(s)
           else Kept(s) + Submits(s, a)
  {
    OpenMeansEmpty(s, a);
    StepMoves(s, a);
    if a.TaskOpens? { AllPass(s.outbox, a.throws); }
    hide Do, Passed, Copies, AddressOf, Enabled;
    assert (s.log.transmitted + s.outbox) + [] == s.log.transmitted + s.outbox;
    assert s.log.transmitted + [] == s.log.transmitted;
    if a.CallSend? {
      var sent := s.log.transmitted + Submits(s, a);
      assert s.open ==> Kept(s) == s.log.transmitted && sent + [] == sent;
      assert s.log.transmitted + (s.outbox + Submits(s, a)) == (s.log.transmitted + s.outbox) + Submits(s, a);
    }
  }

  lemma OutboxBounded(s: State, a: Action)
    requires |s.outbox| <= MAX_OUTBOX
    ensures |Do(s, a).outbox| <= MAX_OUTBOX
  {
    StepMoves(s, a);
    hide Do;
  }

  lemma InOrderStep(s: State, a: Action)
    requires Consistent(s) && Enabled(s, a) && !Throws(a) && InOrder(s) && |s.outbox| <= MAX_OUTBOX
    ensures InOrder(Do(s, a))
  {
    StepKeeps(s, a);
    hide Do, Consistent, Enabled, Throws;
    var s' := Do(s, a);
    if a.CallClose? {
      SubsequencePrefix(s.log.transmitted, s.outbox, s.log.submitted);
      assert s.log.submitted + [] == s.log.submitted;
    } else if a.CallSend? {
      SubsequenceGrows(Kept(s), s.log.submitted, Payload(a.text, s.url, |s.log.submitted|));
    } else {
      assert s.log.submitted + [] == s.log.submitted && Kept(s) + [] == Kept(s);
    }
  }

  /**
   * Every run in which no send throws: what was transmitted, followed by the outbox, is what was submitted, in
   * order, less what a full outbox or a `close` dropped.
   */
  lemma {:induction false} PayloadsInOrder(actions: seq<Action>)
    requires Run(actions).Some? && NoThrow(actions)
    ensures InOrder(Run(actions).value) && |Run(actions).value.outbox| <= 50
  {
    if actions != [] {
      var init, a := actions[..|actions| - 1], actions[|actions| - 1];
      PayloadsInOrder(init);
      ConnectionStates(init);
      hide Do, Consistent, Enabled, InOrder;
      InOrderStep(Run(init).value, a);
      OutboxBounded(Run(init).value, a);
    }
  }

  /** The close callback with a handler that connects at once; the handler runs before the reconnection is scheduled. */
  function CloseWithHandler(s: State, t: TaskId, url: string, newTask: TaskId): State {
    var closed := s.(phases := s.phases[t := Closed(AddressOf(s.phases, t))], open := false, connecting := false);
    ScheduleReconnect(Connect(closed, url, newTask))
  }

  /**
   * After any run, such a handler leaves the manager connecting with a timer pending, which no run without one
   * does.
   */
  lemma ConnectInsideCloseHandler(actions: seq<Action>, t: TaskId, url: string, newTask: TaskId)
    requires Run(actions).Some? && Run(actions).value.task == Some(t)
    requires Enabled(Run(actions).value, TaskCloses(t)) && newTask !in Run(actions).value.phases
    ensures var s := CloseWithHandler(Run(actions).value, t, url, newTask); s.timer && s.connecting && !Consistent(s)
  {
    ConnectionStates(actions);
  }
}
