/** Where the socket manager transmits what it was given to send. */
module SocketRoutes {
  import opened Options
  import opened Socket
  import opened SocketRuns

  /** The address of the last `connect`. */
  function LastConnect(url: string, actions: seq<Action>): string {
    if actions == [] then url
    else
      var last := actions[|actions| - 1];
      if last.CallConnect? then last.url else LastConnect(url, actions[..|actions| - 1])
  }

  lemma {:induction false} LastConnectConcat(url: string, a: seq<Action>, b: seq<Action>)
    ensures LastConnect(url, a + b) == LastConnect(LastConnect(url, a), b)
  {
    if b == [] {
      assert a + b == a;
    } else {
      assert (a + b)[..|a + b| - 1] == a + b[..|b| - 1];
      LastConnectConcat(url, a, b[..|b| - 1]);
    }
  }

  /** The manager's address, its parameters and its task agree. */
  ghost predicate Routed(s: State, url: string) {
    && s.url == url && (s.params.Some? ==> s.params.value == url)
    && (s.task.Some? ==> s.task.value in s.phases && s.phases[s.task.value].address == url)
    && |s.log.wires| == |s.log.transmitted|
  }

  lemma OpenRouted(s: State, url: string, target: string, n: TaskId)
    requires Routed(s, url)
    ensures Routed(Open(s, target, n), target)
  {
  }

  lemma TransmitRouted(s: State, url: string, payloads: seq<Payload>)
    requires Routed(s, url) && s.task.Some?
    ensures Routed(Transmit(s, payloads), url)
  {
  }

  lemma ConnectRouted(s: State, url: string, target: string, n: TaskId)
    requires Routed(s, url)
    ensures Routed(Connect(s, target, n), target)
  {
    hide Open;
    OpenRouted(ClearTimer(s).(attempts := 0), url, target, n);
  }

  lemma EnsureConnectedRouted(s: State, url: string, n: TaskId)
    requires Routed(s, url)
    ensures Routed(EnsureConnected(s, n), url)
  {
    hide Open;
    if s.params.Some? { OpenRouted(ClearTimer(s), url, s.params.value, n); }
  }

  lemma TimerFiresRouted(s: State, url: string, n: TaskId)
    requires Routed(s, url)
    ensures Routed(TimerFires(s, n), url)
  {
    hide Open;
    if s.params.Some? { OpenRouted(s.(timer := false, attempts := s.attempts + 1), url, s.params.value, n); }
  }

  lemma SendRouted(s: State, url: string, text: string, fails: bool)
    requires Routed(s, url)
    ensures Routed(Send(s, text, fails), url)
  {
    hide Transmit;
    var payload := Payload(text, s.url, |s.log.submitted|);
    if s.task.Some? {
      TransmitRouted(s.(log := s.log.(submitted := s.log.submitted + [payload])), url, [payload]);
    }
  }

  lemma OnOpenRouted(s: State, url: string, t: TaskId, throws: seq<bool>)
    requires Routed(s, url)
    ensures Routed(OnOpen(s, t, throws), url)
  {
    hide Transmit, Passed;
    var ready := s.(phases := s.phases[t := Opened(AddressOf(s.phases, t))],
                    open := true, connecting := false, attempts := 0);
    if s.task.Some? { TransmitRouted(ready.(outbox := []), url, Passed(s.outbox, throws)); }
  }

  lemma OnCloseRouted(s: State, url: string, t: TaskId)
    requires Routed(s, url)
    ensures Routed(OnClose(s, t), url) && Routed(OnError(s, t), url) && Routed(Close(s), url)
  {
  }

  lemma RoutedKept(s: State, a: Action, url: string)
    requires Routed(s, url)
    ensures Routed(Do(s, a), if a.CallConnect? then a.url else url)
  {
    hide Routed, Connect, Close, EnsureConnected, Send, OnOpen, OnError, OnClose, TimerFires;
    match a
    case CallConnect(target, n) => ConnectRouted(s, url, target, n);
    case CallClose => OnCloseRouted(s, url, 0);
    case CallEnsureConnected(n) => EnsureConnectedRouted(s, url, n);
    case CallSend(text, fails) => SendRouted(s, url, text, fails);
    case TaskOpens(t, throws) => OnOpenRouted(s, url, t, throws);
    case TaskErrs(t) => OnCloseRouted(s, url, t);
    case TaskCloses(t) => OnCloseRouted(s, url, t);
    case TimerExpires(n) => TimerFiresRouted(s, url, n);
  }

  lemma {:induction false} AlwaysRouted(actions: seq<Action>)
    requires Run(actions).Some?
    ensures Routed(Run(actions).value, LastConnect("", actions))
  {
    if actions != [] {
      var init := actions[..|actions| - 1];
      AlwaysRouted(init);
      hide Routed, Do, Enabled;
      RoutedKept(Run(init).value, actions[|actions| - 1], LastConnect("", init));
    }
  }

  /** The payload was given to the `send` that is action `i`. */
  ghost predicate SentAt(actions: seq<Action>, p: Payload, i: nat) {
    && i < |actions| && actions[i].CallSend? && Run(actions[..i]).Some?
    && p == Payload(actions[i].text, LastConnect("", actions[..i]), |Run(actions[..i]).value.log.submitted|)
  }

  /** Transmission `k` was made by action `j`, on the address current then. */
  ghost predicate WentOutAt(actions: seq<Action>, k: nat, j: nat)
    requires Run(actions).Some? && k < |Run(actions).value.log.wires|
  {
    && j < |actions| && Run(actions[..j]).Some? && Run(actions[..j + 1]).Some?
    && |Run(actions[..j]).value.log.transmitted| <= k < |Run(actions[..j + 1]).value.log.transmitted|
    && Run(actions).value.log.wires[k] == LastConnect("", actions[..j])
  }

  lemma SentBefore(actions: seq<Action>, p: Payload, i: nat)
    requires actions != [] && SentAt(actions[..|actions| - 1], p, i)
    ensures SentAt(actions, p, i)
  {
    assert actions[..|actions| - 1][..i] == actions[..i];
  }

  lemma {:induction false} PassedFrom(payloads: seq<Payload>, throws: seq<bool>, p: Payload)
    requires p in Passed(payloads, throws)
    ensures p in payloads
    decreases |payloads|
  {
    var rest := Passed(payloads[1..], if throws == [] then [] else throws[1..]);
    if p in rest { PassedFrom(payloads[1..], if throws == [] then [] else throws[1..], p); }
  }

  /** What one step transmits is what it sends, or what was queued; and it goes out on the current address. */
  lemma StepTransmits(s: State, a: Action, url: string, k: nat)
    requires Routed(s, url)
    requires |s.log.transmitted| <= k < |Do(s, a).log.transmitted|
    ensures |Do(s, a).log.wires| == |Do(s, a).log.transmitted| && Do(s, a).log.wires[k] == url
    ensures (a.CallSend? && Do(s, a).log.transmitted[k] == Payload(a.text, url, |s.log.submitted|))
      || (a.TaskOpens? && Do(s, a).log.transmitted[k] in s.outbox)
  {
    StepMoves(s, a);
    hide Do;
    var p := Do(s, a).log.transmitted[k];
    assert p == Transmits(s, a)[k - |s.log.transmitted|];
    hide Passed;
    if a.TaskOpens? { PassedFrom(s.outbox, a.throws, p); }
  }

  lemma StepKeepsTransmitted(s: State, a: Action)
    ensures s.log.transmitted <= Do(s, a).log.transmitted && s.log.wires <= Do(s, a).log.wires
    ensures forall p :: p in Do(s, a).outbox ==>
      p in s.outbox || (a.CallSend? && p == Payload(a.text, s.url, |s.log.submitted|))
  {
    StepMoves(s, a);
    hide Do;
  }

  lemma {:induction false} QueuedFrom(actions: seq<Action>, p: Payload) returns (i: nat)
    requires Run(actions).Some? && p in Run(actions).value.outbox
    ensures SentAt(actions, p, i)
  {
    var init, a := actions[..|actions| - 1], actions[|actions| - 1];
    var s := Run(init).value;
    AlwaysRouted(init);
    StepKeepsTransmitted(s, a);
    hide Do;
    if p in s.outbox {
      i := QueuedFrom(init, p);
      SentBefore(actions, p, i);
    } else {
      i := |init|;
      assert actions[..i] == init;
    }
  }

  lemma WentOutBefore(actions: seq<Action>, k: nat, j: nat)
    requires actions != [] && Run(actions).Some? && Run(actions[..|actions| - 1]).Some?
    requires k < |Run(actions[..|actions| - 1]).value.log.wires| && WentOutAt(actions[..|actions| - 1], k, j)
    requires Run(actions[..|actions| - 1]).value.log.wires <= Run(actions).value.log.wires
    ensures WentOutAt(actions, k, j)
  {
    hide Run, LastConnect;
    var init := actions[..|actions| - 1];
    assert init[..j] == actions[..j] && init[..j + 1] == actions[..j + 1];
  }

  /** A transmission of the last step. */
  lemma TracedNow(actions: seq<Action>, k: nat) returns (i: nat)
    requires actions != [] && Run(actions).Some? && Run(actions[..|actions| - 1]).Some?
    requires |Run(actions[..|actions| - 1]).value.log.transmitted| <= k < |Run(actions).value.log.transmitted|
    ensures |Run(actions).value.log.wires| == |Run(actions).value.log.transmitted|
    ensures i < |actions| && SentAt(actions, Run(actions).value.log.transmitted[k], i)
    ensures WentOutAt(actions, k, |actions| - 1)
  {
    var init, a := actions[..|actions| - 1], actions[|actions| - 1];
    var s := Run(init).value;
    assert Run(actions).value == Do(s, a);
    AlwaysRouted(init);
    StepTransmits(s, a, LastConnect("", init), k);
    assert actions[..|init|] == init && actions[..|init| + 1] == actions;
    hide Do, Routed, Run, LastConnect;
    if a.CallSend? {
      i := |init|;
    } else {
      i := QueuedFrom(init, Run(actions).value.log.transmitted[k]);
      SentBefore(actions, Run(actions).value.log.transmitted[k], i);
    }
  }

  /** Every transmission has its `send` and its step. */
  lemma {:induction false} Traced(actions: seq<Action>, k: nat) returns (i: nat, j: nat)
    requires Run(actions).Some? && k < |Run(actions).value.log.transmitted|
    ensures |Run(actions).value.log.wires| == |Run(actions).value.log.transmitted|
    ensures i <= j && SentAt(actions, Run(actions).value.log.transmitted[k], i) && WentOutAt(actions, k, j)
  {
    var init, a := actions[..|actions| - 1], actions[|actions| - 1];
    var s := Run(init).value;
    AlwaysRouted(init);
    AlwaysRouted(actions);
    StepKeepsTransmitted(s, a);
    hide Do, SentAt, WentOutAt, LastConnect;
    if k < |s.log.transmitted| {
      i, j := Traced(init, k);
      hide Run;
      SentBefore(actions, s.log.transmitted[k], i);
      WentOutBefore(actions, k, j);
    } else {
      i := TracedNow(actions, k);
      j := |init|;
    }
  }

  lemma SentTo(actions: seq<Action>, p: Payload, i: nat)
    requires SentAt(actions, p, i)
    ensures i < |actions| && p.to == LastConnect("", actions[..i])
  {
  }

  lemma WentOutOn(actions: seq<Action>, k: nat, j: nat)
    requires Run(actions).Some? && k < |Run(actions).value.log.wires| && WentOutAt(actions, k, j)
    ensures j < |actions| && Run(actions).value.log.wires[k] == LastConnect("", actions[..j])
  {
  }

  /**
   * In every run: each payload goes out on the address that was current at its `send` exactly when the last
   * `connect` while it was queued, if there was one, was to that address.
   */
  lemma GoesWhereItWasSentIff(actions: seq<Action>, k: nat) returns (i: nat, j: nat)
    requires Run(actions).Some? && k < |Run(actions).value.log.transmitted|
    ensures |Run(actions).value.log.wires| == |Run(actions).value.log.transmitted|
    ensures i <= j && SentAt(actions, Run(actions).value.log.transmitted[k], i) && WentOutAt(actions, k, j)
    ensures var p := Run(actions).value.log.transmitted[k];
      Run(actions).value.log.wires[k] == p.to <==> LastConnect(p.to, actions[i..j]) == p.to
  {
    i, j := Traced(actions, k);
    hide Run, LastConnect, SentAt, WentOutAt;
    SentTo(actions, Run(actions).value.log.transmitted[k], i);
    WentOutOn(actions, k, j);
    LastConnectConcat("", actions[..i], actions[i..j]);
    CutInTwo(actions, i, j);
  }

  lemma CutInTwo<T>(s: seq<T>, i: nat, j: nat)
    requires i <= j <= |s|
    ensures s[..i] + s[i..j] == s[..j]
  {
  }

  /** A stop sent to one conversation while it is not connected, and delivered to the next. */
  lemma StopGoesAstray()
    ensures var end := Run([CallConnect("A", 0), CallSend("stop", false), CallConnect("B", 1), TaskOpens(1, [])]);
      end.Some? && end.value.log.transmitted == [Payload("stop", "A", 0)] && end.value.log.wires == ["B"]
  {
    var a, b, c, d := CallConnect("A", 0), CallSend("stop", false), CallConnect("B", 1), TaskOpens(1, []);
    QueuedForA();
    var s := Send(Connect(START, "A", 0), "stop", false);
    SentToB(s);
    hide Connect, Send, OnOpen;
    RunSnoc([], a);
    RunSnoc([a], b);
    assert [] + [a] == [a] && [a] + [b] == [a, b];
    assert Run([a, b]) == Some(s);
    RunSnoc([a, b], c);
    assert [a, b] + [c] == [a, b, c];
    RunSnoc([a, b, c], d);
    assert [a, b, c] + [d] == [a, b, c, d];
  }

  lemma QueuedForA()
    ensures var s := Send(Connect(START, "A", 0), "stop", false);
      && s.outbox == [Payload("stop", "A", 0)] && s.log.transmitted == [] && s.log.wires == [] && s.url == "A"
      && s.phases == map[0 := Connecting("A")]
  {
  }

  lemma SentToB(s: State)
    requires s.outbox == [Payload("stop", "A", 0)] && s.log.transmitted == [] && s.log.wires == [] && s.url == "A"
    requires s.phases == map[0 := Connecting("A")]
    ensures var r := Connect(s, "B", 1);
      && 1 !in s.phases && 1 in r.phases && r.phases[1].Connecting?
      && OnOpen(r, 1, []).log.transmitted == [Payload("stop", "A", 0)] && OnOpen(r, 1, []).log.wires == ["B"]
  {
    assert "A" != "B" by { assert "A"[0] != "B"[0]; }
    assert s.outbox[1..] == [] && Passed(s.outbox, []) == s.outbox;
  }

  lemma RunSnoc(actions: seq<Action>, a: Action)
    requires Run(actions).Some? && Enabled(Run(actions).value, a)
    ensures Run(actions + [a]) == Some(Do(Run(actions).value, a))
  {
    assert (actions + [a])[..|actions|] == actions;
  }
}
