/** The mini program's WebSocket manager: one connection, automatic reconnection, an outbox. */
module Socket {
  import opened Options

  type TaskId = nat

  const MAX_OUTBOX: nat := 50

  /**
   * A socket task, by what the platform will still call back for it: its close comes after its open, once. It
   * keeps the address it was made for.
   */
  datatype Phase = Connecting(address: string) | Opened(address: string) | Closed(address: string)

  /** What a `send` is given; for the statements, with the address current then and the number of the `send`. */
  datatype Payload = Payload(text: string, to: string, number: nat)

  datatype Log = Log(submitted: seq<Payload>, transmitted: seq<Payload>, wires: seq<string>)

  /**
   * The manager's `state`, with connection parameters taken as the URL they build; the platform's socket
   * tasks; and, for the statements, what was submitted, what was transmitted, and on which address.
   */
  datatype State = State(
    task: Option<TaskId>, url: string, params: Option<string>,
    open: bool, connecting: bool, manualClosed: bool, timer: bool, attempts: nat, outbox: seq<Payload>,
    phases: map<TaskId, Phase>, log: Log)

  const START: State := State(None, "", None, false, false, true, false, 0, [], map[], Log([], [], []))

  // ---- the manager's functions ----

  function ClearTimer(s: State): State {
    s.(timer := false)
  }

  function ScheduleReconnect(s: State): State {
    if s.manualClosed || s.params.None? || s.timer then s else s.(timer := true)
  }

  function CloseTaskSilently(s: State): State {
    s.(task := None, open := false, connecting := false)
  }

  /** `newTask` is the socket task the platform hands out. */
  function Open(s: State, url: string, newTask: TaskId): (r: State)
    ensures r.outbox == s.outbox && r.log == s.log
  {
    if s.task.Some? && s.url == url && (s.open || s.connecting) then s else OpenNew(CloseTaskSilently(s), url, newTask)
  }

  function OpenNew(s: State, url: string, newTask: TaskId): State {
    s.(params := Some(url), url := url, manualClosed := false, open := false, connecting := true, task := Some(newTask),
       phases := s.phases[newTask := Connecting(url)])
  }

  /** The payloads whose send does not throw. */
  function Passed(payloads: seq<Payload>, throws: seq<bool>): seq<Payload> {
    if payloads == [] then []
    else (if throws != [] && throws[0] then [] else [payloads[0]])
         + Passed(payloads[1..], if throws == [] then [] else throws[1..])
  }

  function Rest(throws: seq<bool>, k: nat): seq<bool> {
    if k < |throws| then throws[k..] else []
  }

  lemma PassedOneMore(payloads: seq<Payload>, throws: seq<bool>, k: nat)
    requires k < |payloads|
    ensures Passed(payloads[k..], Rest(throws, k)) ==
      (if k < |throws| && throws[k] then [] else [payloads[k]]) + Passed(payloads[k + 1..], Rest(throws, k + 1))
  {
    assert payloads[k..][1..] == payloads[k + 1..];
  }

  lemma PassedNone(throws: seq<bool>, k: nat)
    ensures Passed([], Rest(throws, k)) == []
  {
  }

  function AddressOf(phases: map<TaskId, Phase>, t: TaskId): string {
    if t in phases then phases[t].address else ""
  }

  /** Payloads go out on the socket of the current task. */
  function Transmit(s: State, payloads: seq<Payload>): State
    requires s.task.Some?
  {
    s.(log := Log(s.log.submitted, s.log.transmitted + payloads,
                  s.log.wires + Copies(AddressOf(s.phases, s.task.value), |payloads|)))
  }

  lemma TransmitNone(s: State)
    requires s.task.Some?
    ensures Transmit(s, []) == s
  {
    assert s.log.wires + Copies(AddressOf(s.phases, s.task.value), 0) == s.log.wires;
  }

  lemma TransmitOneMore(s: State, done: seq<Payload>, p: Payload)
    requires s.task.Some?
    ensures Transmit(Transmit(s, done), [p]) == Transmit(s, done + [p])
  {
    var a := AddressOf(s.phases, s.task.value);
    assert Copies(a, |done|) + Copies(a, 1) == Copies(a, |done + [p]|);
  }

  function Copies(address: string, n: nat): seq<string> {
    seq(n, _ => address)
  }

  function FlushOutbox(s: State, throws: seq<bool>): State {
    if !s.open || s.task.None? then s
    else Transmit(s.(outbox := []), Passed(s.outbox, throws))
  }

  function OnOpen(s: State, t: TaskId, throws: seq<bool>): State {
    var s1 := s.(phases := s.phases[t := Opened(AddressOf(s.phases, t))]);
    if s.task != Some(t) then s1
    else FlushOutbox(s1.(open := true, connecting := false, attempts := 0), throws)
  }

  function OnError(s: State, t: TaskId): State {
    if s.task != Some(t) then s else s.(connecting := false)
  }

  function OnClose(s: State, t: TaskId): State {
    var s1 := s.(phases := s.phases[t := Closed(AddressOf(s.phases, t))]);
    if s.task != Some(t) then s1 else ScheduleReconnect(s1.(open := false, connecting := false))
  }

  function TimerFires(s: State, newTask: TaskId): State {
    var s1 := s.(timer := false);
    if s1.manualClosed || s1.params.None? then s1
    else Open(s1.(attempts := s1.attempts + 1), s1.params.value, newTask)
  }

  function Connect(s: State, url: string, newTask: TaskId): State {
    Open(ClearTimer(s).(attempts := 0), url, newTask)
  }

  function Close(s: State): State {
    CloseTaskSilently(ClearTimer(s.(manualClosed := true, params := None, outbox := [], attempts := 0)))
  }

  function EnsureConnected(s: State, newTask: TaskId): State {
    if s.manualClosed || s.params.None? || s.open || s.connecting then s
    else Open(ClearTimer(s), s.params.value, newTask)
  }

  function Send(s: State, text: string, throws: bool): State {
    var payload := Payload(text, s.url, |s.log.submitted|);
    var s1 := s.(log := s.log.(submitted := s.log.submitted + [payload]));
    if s.open && s.task.Some? && !throws then Transmit(s1, [payload])
    else if |s.outbox| < MAX_OUTBOX then s1.(outbox := s.outbox + [payload])
    else s1
  }

  /**
   * What every call and every callback keeps. The manager is open exactly when the platform has its task open, and
   * waits for a reconnection exactly when its task has closed; once closed by hand it has neither task nor timer.
   */
  ghost predicate Consistent(s: State) {
    && (s.manualClosed <==> s.params.None?) && (s.manualClosed <==> s.task.None?)
    && (s.task.Some? ==> s.task.value in s.phases)
    && (s.open <==> s.task.Some? && s.phases[s.task.value].Opened?)
    && (s.connecting ==> s.task.Some? && s.phases[s.task.value].Connecting?)
    && (s.timer <==> Waiting(s))
    && |s.outbox| <= MAX_OUTBOX
  }

  predicate Waiting(s: State) {
    s.task.Some? && s.task.value in s.phases && s.phases[s.task.value].Closed?
  }

  // ---- what the functions keep ----

  /** Opening, with the timer cleared before. */
  lemma OpenConsistent(s: State, url: string, n: TaskId)
    requires Consistent(s.(timer := Waiting(s))) && !s.timer && n !in s.phases
    ensures Consistent(Open(s, url, n))
    ensures var r := Open(s, url, n); !r.manualClosed && r.url == url && (r.open || r.connecting)
    ensures !s.open && !s.connecting ==> Open(s, url, n).connecting && Open(s, url, n).task == Some(n)
  {
  }

  lemma OnOpenConsistent(s: State, t: TaskId, throws: seq<bool>)
    requires Consistent(s) && t in s.phases && s.phases[t].Connecting?
    ensures Consistent(OnOpen(s, t, throws))
    ensures s.task == Some(t) ==> OnOpen(s, t, throws).open && OnOpen(s, t, throws).outbox == []
  {
    hide Passed, AddressOf, Copies;
  }

  lemma OnErrorConsistent(s: State, t: TaskId)
    requires Consistent(s)
    ensures Consistent(OnError(s, t))
  {
  }

  lemma OnCloseConsistent(s: State, t: TaskId)
    requires Consistent(s) && t in s.phases && !s.phases[t].Closed?
    ensures Consistent(OnClose(s, t)) && (s.task == Some(t) ==> OnClose(s, t).timer)
  {
  }

  lemma TimerFiresConsistent(s: State, n: TaskId)
    requires Consistent(s) && s.timer && n !in s.phases
    ensures s.params.Some? && Consistent(TimerFires(s, n))
    ensures var r := TimerFires(s, n); r.connecting && r.task == Some(n) && r.url == s.params.value
  {
    hide Open;
    OpenConsistent(s.(timer := false, attempts := s.attempts + 1), s.params.value, n);
  }

  lemma ConnectConsistent(s: State, url: string, n: TaskId)
    requires Consistent(s) && n !in s.phases
    ensures Consistent(Connect(s, url, n))
    ensures var r := Connect(s, url, n); !r.manualClosed && r.url == url && (r.open || r.connecting)
  {
    hide Open;
    OpenConsistent(ClearTimer(s).(attempts := 0), url, n);
  }

  lemma EnsureConnectedConsistent(s: State, n: TaskId)
    requires Consistent(s) && n !in s.phases
    ensures var r := EnsureConnected(s, n); Consistent(r) && (!r.manualClosed ==> r.open || r.connecting)
  {
    hide Open;
    if s.params.Some? { OpenConsistent(ClearTimer(s), s.params.value, n); }
  }

  lemma CloseConsistent(s: State)
    requires Consistent(s)
    ensures var r := Close(s); Consistent(r) && r.task.None? && !r.timer && !r.open && !r.connecting
  {
  }

  lemma SendConsistent(s: State, text: string, throws: bool)
    requires Consistent(s)
    ensures Consistent(Send(s, text, throws)) && (s.open ==> s.task.Some?)
  {
    hide AddressOf, Copies;
  }

  class SocketManager {
    var task: Option<TaskId>
    var url: string
    var params: Option<string>
    var open: bool
    var connecting: bool
    var manualClosed: bool
    var timer: bool
    var attempts: nat
    var outbox: seq<Payload>
    var phases: map<TaskId, Phase>
    var log: Log

    ghost function Value(): State
      reads this
    {
      State(task, url, params, open, connecting, manualClosed, timer, attempts, outbox, phases, log)
    }

    ghost predicate Valid()
      reads this
    {
      Consistent(Value())
    }

    constructor ()
      ensures Value() == START && Valid()
    {
      task, url, params, open, connecting, manualClosed, timer, attempts, outbox :=
        None, "", None, false, false, true, false, 0, [];
      phases, log := map[], Log([], [], []);
    }

    method DoCloseTaskSilently()
      modifies this`task, this`open, this`connecting
      ensures Value() == CloseTaskSilently(old(Value()))
    {
      task := None;
      open := false;
      connecting := false;
    }

    method DoOpen(newUrl: string, newTask: TaskId)
      modifies this`task, this`url, this`params, this`open, this`connecting, this`manualClosed, this`phases
      ensures Value() == Open(old(Value()), newUrl, newTask)
    {
      hide OpenNew;
      if task.Some? && url == newUrl && (open || connecting) { return; }
      DoCloseTaskSilently();
      DoOpenNew(newUrl, newTask);
    }

    method DoOpenNew(newUrl: string, newTask: TaskId)
      modifies this`task, this`url, this`params, this`open, this`connecting, this`manualClosed, this`phases
      ensures Value() == OpenNew(old(Value()), newUrl, newTask)
    {
      params, url := Some(newUrl), newUrl;
      manualClosed, open, connecting := false, false, true;
      task := Some(newTask);
      phases := phases[newTask := Connecting(newUrl)];
    }

    method DoFlushOutbox(throws: seq<bool>)
      modifies this`outbox, this`log
      ensures Value() == FlushOutbox(old(Value()), throws)
    {
      if !open || task.None? { return; }
      var pending := outbox;
      outbox := [];
      TransmitAll(pending, throws);
    }

    /** The loop over the pending payloads; one that throws is lost. */
    method TransmitAll(pending: seq<Payload>, throws: seq<bool>)
      requires task.Some?
      modifies this`log
      ensures Value() == Transmit(old(Value()), Passed(pending, throws))
    {
      hide Passed;
      ghost var done: seq<Payload> := [];
      var k := 0;
      assert pending[0..] == pending && Rest(throws, 0) == throws;
      TransmitNone(Value());
      while k < |pending|
        invariant 0 <= k <= |pending|
        invariant done + Passed(pending[k..], Rest(throws, k)) == Passed(pending, throws)
        invariant Value() == Transmit(old(Value()), done)
      {
        PassedOneMore(pending, throws, k);
        if !(k < |throws| && throws[k]) {
          TransmitOneMore(old(Value()), done, pending[k]);
          done := done + [pending[k]];
          DoTransmit(pending[k]);
        }
        k := k + 1;
      }
      PassedNone(throws, k);
      assert pending[k..] == [] && done + [] == done;
    }

    method DoTransmit(payload: Payload)
      requires task.Some?
      modifies this`log
      ensures Value() == Transmit(old(Value()), [payload])
    {
      log := Log(log.submitted, log.transmitted + [payload], log.wires + [AddressOf(phases, task.value)]);
    }

    method DoOnOpen(t: TaskId, throws: seq<bool>)
      requires Valid() && t in phases && phases[t].Connecting?
      modifies this
      ensures Value() == OnOpen(old(Value()), t, throws)
      ensures Valid() && (old(task) == Some(t) ==> open && outbox == [])
    {
      hide Consistent, Passed, Copies;
      OnOpenConsistent(Value(), t, throws);
      phases := phases[t := Opened(AddressOf(phases, t))];
      if task != Some(t) { return; }
      open, connecting, attempts := true, false, 0;
      DoFlushOutbox(throws);
    }

    method DoScheduleReconnect()
      modifies this`timer
      ensures Value() == ScheduleReconnect(old(Value()))
    {
      if manualClosed || params.None? || timer { return; }
      timer := true;
    }

    method DoOnError(t: TaskId)
      requires Valid()
      modifies this
      ensures Value() == OnError(old(Value()), t)
      ensures Valid()
    {
      hide Consistent;
      OnErrorConsistent(Value(), t);
      if task != Some(t) { return; }
      connecting := false;
    }

    method DoOnClose(t: TaskId)
      requires Valid() && t in phases && !phases[t].Closed?
      modifies this
      ensures Value() == OnClose(old(Value()), t)
      ensures Valid() && (old(task) == Some(t) ==> timer)
    {
      hide Consistent;
      OnCloseConsistent(Value(), t);
      phases := phases[t := Closed(AddressOf(phases, t))];
      if task != Some(t) { return; }
      open, connecting := false, false;
      DoScheduleReconnect();
    }

    method DoTimerFires(newTask: TaskId)
      requires Valid() && timer && newTask !in phases
      modifies this
      ensures Value() == TimerFires(old(Value()), newTask)
      ensures Valid() && connecting && task == Some(newTask) && url == old(params).value
    {
      hide Consistent, Open;
      TimerFiresConsistent(Value(), newTask);
      timer := false;
      if manualClosed || params.None? { return; }
      attempts := attempts + 1;
      DoOpen(params.value, newTask);
    }

    method DoConnect(newUrl: string, newTask: TaskId)
      requires Valid() && newTask !in phases
      modifies this
      ensures Value() == Connect(old(Value()), newUrl, newTask)
      ensures Valid() && !manualClosed && url == newUrl && (open || connecting)
    {
      hide Consistent, Open;
      ConnectConsistent(Value(), newUrl, newTask);
      timer := false;
      attempts := 0;
      DoOpen(newUrl, newTask);
    }

    method DoClose()
      requires Valid()
      modifies this
      ensures Value() == Close(old(Value()))
      ensures Valid() && task.None? && !timer && !open && !connecting
    {
      hide Consistent;
      CloseConsistent(Value());
      manualClosed, params, outbox, attempts := true, None, [], 0;
      timer := false;
      DoCloseTaskSilently();
    }

    method DoEnsureConnected(newTask: TaskId)
      requires Valid() && newTask !in phases
      modifies this
      ensures Value() == EnsureConnected(old(Value()), newTask)
      ensures Valid() && (!manualClosed ==> open || connecting)
    {
      hide Consistent, Open;
      EnsureConnectedConsistent(Value(), newTask);
      if manualClosed || params.None? { return; }
      if open || connecting { return; }
      timer := false;
      DoOpen(params.value, newTask);
    }

    method DoSend(text: string, throws: bool) returns (now: bool)
      requires Valid()
      modifies this
      ensures Value() == Send(old(Value()), text, throws)
      ensures Valid() && (now <==> old(open) && !throws)
      ensures now ==>
        |log.transmitted| == |old(log.transmitted)| + 1 && log.transmitted[|old(log.transmitted)|].text == text
    {
      hide Consistent;
      SendConsistent(Value(), text, throws);
      var payload := Payload(text, url, |log.submitted|);
      log := log.(submitted := log.submitted + [payload]);
      if open && task.Some? && !throws {
        DoTransmit(payload);
        return true;
      }
      if |outbox| < MAX_OUTBOX {
        outbox := outbox + [payload];
      }
      return false;
    }
  }
}
