/** A background agent task as the gateway keeps it, and its life from start to adoption or stop. */
module Session {
  import opened Options
  import opened History
  import L = TaskLog

  class RunningTask {
    const startMessage: string
    /** The replay log, and everything handed to the broadcast channel. */
    var events: seq<string>
    var sent: seq<string>
    var running: bool
    /** The abort handle, until a stop takes it; and whether it was used. */
    var abortHandle: bool
    var abortAsked: bool
    var finalHistory: Option<seq<ChatMessage>>

    constructor (startMessage: string)
      ensures this.startMessage == startMessage && events == [] && sent == []
      ensures running && !abortHandle && !abortAsked && finalHistory == None
    {
      this.startMessage := startMessage;
      events, sent, running, abortHandle, abortAsked, finalHistory := [], [], true, false, false, None;
    }

    /** Uninterrupted, an emit is the broadcast step followed by the append step. */
    method Emit(json: string)
      modifies this`events, this`sent
      ensures events == old(events) + [json] && sent == old(sent) + [json]
      ensures forall conns, w :: var s := L.State(old(events), old(sent), map[], conns);
        var mid := L.Do(s, L.Broadcast(w, json));
        L.Enabled(mid, L.Append(w)) && L.Do(mid, L.Append(w)) == L.State(events, sent, map[], conns)
    {
      sent := sent + [json];
      events := events + [json];
      forall w: L.Emitter
        ensures map[][w := L.Flight(json, |old(sent)|)] - {w} == map[]
      {
      }
    }

    /** Subscribe at the end of the broadcast and copy the log. */
    method Attach() returns (pos: nat, snapshot: seq<string>)
      ensures pos == |sent| && snapshot == events
    {
      return |sent|, events;
    }

    method SetFinished()
      modifies this`running
      ensures !running
    {
      running := false;
    }

    method SetAbortHandle()
      modifies this`abortHandle
      ensures abortHandle
    {
      abortHandle := true;
    }

    /** Returns whether the task was running; only then is anything changed. */
    method Abort() returns (stopped: bool)
      modifies this`running, this`abortHandle, this`abortAsked
      ensures stopped == old(running) && !running
      ensures abortAsked == (old(abortAsked) || (stopped && old(abortHandle)))
      ensures abortHandle == (old(abortHandle) && !stopped)
    {
      if !running {
        return false;
      }
      if abortHandle {
        abortHandle := false;
        abortAsked := true;
      }
      running := false;
      return true;
    }

    method SetFinalHistory(history: seq<ChatMessage>)
      modifies this`finalHistory
      ensures finalHistory == Some(history)
    {
      finalHistory := Some(history);
    }

    /** One-shot: what is taken is gone. */
    method TakeFinalHistory() returns (h: Option<seq<ChatMessage>>)
      modifies this`finalHistory
      ensures h == old(finalHistory) && finalHistory == None
    {
      h := finalHistory;
      finalHistory := None;
    }
  }

  // ---- the life of one task, every step of the task and of the handlers interleaved ----

  datatype Stage = Working | Published | Ended | Cancelled | Panicked

  /**
   * `stopping` counts handlers that have seen the task running and are about to stop it; `stops` those
   * that have.
   */
  datatype Life = Life(
    stage: Stage, running: bool, handleSet: bool, abortAsked: bool, finalHistory: bool,
    adoptions: nat, stopping: nat, stops: nat)

  const BORN: Life := Life(Working, true, false, false, false, 0, 0, 0)

  /** A task that publishes, panics or is cancelled at an await is marked as finished by its drop guard. */
  datatype Step =
    | SetHandle | Publish | DropGuard | CancelAtAwait | Panic
    | StopSeen | StopActs
    | Adopt

  predicate Possible(s: Life, step: Step) {
    match step
    case SetHandle => !s.handleSet
    case Publish => s.stage == Working
    case DropGuard => s.stage == Published
    case CancelAtAwait => s.stage == Working && s.abortAsked
    case Panic => s.stage == Working
    case StopSeen => s.running
    case StopActs => s.stopping > 0
    case Adopt => !s.running
  }

  function Take(s: Life, step: Step): Life
    requires Possible(s, step)
  {
    match step
    case SetHandle => s.(handleSet := true)
    case Publish => s.(stage := Published, finalHistory := true)
    case DropGuard => s.(stage := Ended, running := false)
    case CancelAtAwait => s.(stage := Cancelled, running := false)
    case Panic => s.(stage := Panicked, running := false)
    case StopSeen => s.(stopping := s.stopping + 1)
    case StopActs =>
      s.(stopping := s.stopping - 1, stops := s.stops + 1, abortAsked := s.abortAsked || s.handleSet, running := false)
    case Adopt => if s.finalHistory then s.(finalHistory := false, adoptions := s.adoptions + 1) else s
  }

  /** A task's life after some steps, from a given point on. */
  function From(s: Life, steps: seq<Step>): Option<Life> {
    if steps == [] then Some(s)
    else
      match From(s, steps[..|steps| - 1])
      case Some(m) => if Possible(m, steps[|steps| - 1]) then Some(Take(m, steps[|steps| - 1])) else None
      case None => None
  }

  function Live(steps: seq<Step>): Option<Life> {
    From(BORN, steps)
  }

  /**
   * In every interleaving the finished history is adopted at most once; a task that no one stopped and that did
   * not panic is reported as finished only after its history is out, so the first adopter gets it; a task that
   * panicked leaves no history; and a task is cancelled only after a stop.
   */
  lemma {:induction false} AdoptedOnceAndInTime(steps: seq<Step>)
    requires Live(steps).Some?
    ensures var s := Live(steps).value;
      && s.adoptions + (if s.finalHistory then 1 else 0) == (if s.stage == Published || s.stage == Ended then 1 else 0)
      && (!s.running && s.stops == 0 ==> s.stage == Ended || s.stage == Panicked)
      && (s.stage == Ended || s.stage == Cancelled || s.stage == Panicked ==> !s.running)
      && (s.abortAsked ==> s.stops > 0) && (s.stage == Cancelled ==> s.stops > 0)
  {
    if steps != [] {
      AdoptedOnceAndInTime(steps[..|steps| - 1]);
    }
  }

  /** One step comes, and later another. */
  predicate InOrder(steps: seq<Step>, first: Step, later: Step) {
    steps != []
    && var n := |steps| - 1;
       InOrder(steps[..n], first, later) || (steps[n] == later && first in steps[..n])
  }

  /**
   * In every run: a task counts as running until it is dropped, cancelled, has panicked or a stop has acted; its
   * history is adopted exactly when someone looks for it after it was published, and never from a running task.
   */
  lemma {:induction false} LifeIs(steps: seq<Step>)
    requires Live(steps).Some?
    ensures var s := Live(steps).value;
      && (s.running <==>
            StopActs !in steps && DropGuard !in steps && CancelAtAwait !in steps && Panic !in steps)
      && (s.stops > 0 <==> StopActs in steps)
      && (s.adoptions > 0 || s.finalHistory <==> Publish in steps)
      && (s.adoptions > 0 <==> InOrder(steps, Publish, Adopt))
      && (s.adoptions > 0 ==> !s.running)
  {
    if steps != [] {
      var init, last := steps[..|steps| - 1], steps[|steps| - 1];
      LifeIs(init);
      assert steps == init + [last];
    }
  }

  // ---- when a stop stops the task ----

  /** In every run: the task is asked to abort exactly when some stop acts after the handle is stored. */
  lemma {:induction false} AbortAskedIff(steps: seq<Step>)
    requires Live(steps).Some?
    ensures Live(steps).value.handleSet <==> SetHandle in steps
    ensures Live(steps).value.abortAsked <==> InOrder(steps, SetHandle, StopActs)
  {
    if steps != [] {
      var init, last := steps[..|steps| - 1], steps[|steps| - 1];
      AbortAskedIff(init);
      assert steps == init + [last];
    }
  }

  /** Marked as finished, nobody about to stop it, and never asked to abort. */
  predicate OutOfReach(s: Life) {
    !s.running && !s.abortAsked && s.stopping == 0
  }

  lemma {:induction false} OutOfReachForGood(s: Life, more: seq<Step>)
    requires OutOfReach(s) && s.stage == Working && From(s, more).Some?
    ensures OutOfReach(From(s, more).value) && From(s, more).value.stage != Cancelled
  {
    if more != [] { OutOfReachForGood(s, more[..|more| - 1]); }
  }

  ghost predicate CanBeCancelled(s: Life) {
    exists more :: From(s, more).Some? && From(s, more).value.stage == Cancelled
  }

  lemma FromCons(s: Life, step: Step, rest: seq<Step>)
    requires Possible(s, step)
    ensures From(s, [step] + rest) == From(Take(s, step), rest)
    decreases |rest|
  {
    var all := [step] + rest;
    if rest == [] {
      assert all == [step] && [step][..0] == [];
    } else {
      assert all[..|all| - 1] == [step] + rest[..|rest| - 1];
      FromCons(s, step, rest[..|rest| - 1]);
    }
  }

  lemma CancelLater(s: Life, step: Step)
    requires Possible(s, step) && CanBeCancelled(Take(s, step))
    ensures CanBeCancelled(s)
  {
    var more :| From(Take(s, step), more).Some? && From(Take(s, step), more).value.stage == Cancelled;
    FromCons(s, step, more);
  }

  lemma StopsReach(s: Life)
    requires s.stage == Working && !OutOfReach(s)
    ensures CanBeCancelled(s)
  {
    if s.abortAsked {
      FromCons(s, CancelAtAwait, []);
      assert From(s, [CancelAtAwait] + []).Some?;
    } else if !s.handleSet {
      StopsReachOnceStored(Take(s, SetHandle));
      CancelLater(s, SetHandle);
    } else {
      StopsReachOnceStored(s);
    }
  }

  lemma StopsReachOnceStored(s: Life)
    requires s.stage == Working && !s.abortAsked && s.handleSet && (s.running || s.stopping > 0)
    ensures CanBeCancelled(s)
  {
    var seen := if s.stopping > 0 then s else Take(s, StopSeen);
    var asked := Take(seen, StopActs);
    FromCons(asked, CancelAtAwait, []);
    assert From(asked, [CancelAtAwait] + []).Some?;
    CancelLater(seen, StopActs);
    if s.stopping == 0 { CancelLater(s, StopSeen); }
  }

  /** In every run, a working task can still be cancelled, by whatever comes, exactly when it is within reach. */
  lemma CancelledIff(steps: seq<Step>)
    requires Live(steps).Some? && Live(steps).value.stage == Working
    ensures CanBeCancelled(Live(steps).value) <==> !OutOfReach(Live(steps).value)
  {
    hide OutOfReach, CanBeCancelled;
    var s := Live(steps).value;
    if OutOfReach(s) { NeverCancelled(s); } else { StopsReach(s); }
  }

  lemma NeverCancelled(s: Life)
    requires OutOfReach(s) && s.stage == Working
    ensures !CanBeCancelled(s)
  {
    hide OutOfReach;
    forall more | From(s, more).Some? ensures From(s, more).value.stage != Cancelled { OutOfReachForGood(s, more); }
  }

  /** A stop that acts before the handle is stored puts a working task out of reach; it may still work to its end. */
  lemma StopBeforeHandle()
    ensures var s := Live([StopSeen, StopActs, SetHandle]);
      && s.Some? && s.value.stage == Working && OutOfReach(s.value) && !CanBeCancelled(s.value)
      && From(s.value, [Publish]).Some? && From(s.value, [Publish]).value.finalHistory
  {
    var seen := Take(BORN, StopSeen);
    var acted := Take(seen, StopActs);
    var s := Take(acted, SetHandle);
    FromCons(BORN, StopSeen, [StopActs, SetHandle]);
    FromCons(seen, StopActs, [SetHandle]);
    FromCons(acted, SetHandle, []);
    assert [StopSeen] + [StopActs, SetHandle] == [StopSeen, StopActs, SetHandle];
    assert [StopActs] + [SetHandle] == [StopActs, SetHandle] && [SetHandle] + [] == [SetHandle];
    NeverCancelled(s);
    FromCons(s, Publish, []);
    assert [Publish] + [] == [Publish];
  }
}
