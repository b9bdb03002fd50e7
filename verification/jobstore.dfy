/**
 * The cron job map, its store, and the tasks that touch both: trigger loops, manual triggers, removals,
 * updates and additions, interleaved at every await point.
 */
module JobStore {
  import opened Options

  type Id = string
  type Pid = nat

  datatype Job = Job(lastRun: Option<int>, settings: int)

  /**
   * Where a task stands. A task at `LoopSave` or `TriggerSave` holds the jobs lock across the store write. An
   * update or an addition is at `Spawn` until it has spawned the new loop, then at `WriteJob` until the job is
   * in the map. `Stray` is the store write of a loop that was aborted in the middle of it: the database may
   * still carry it out.
   */
  datatype Task =
    | LoopMark(id: Id) | LoopLock(id: Id) | LoopSave(id: Id, job: Job) | Stray(id: Id, job: Job)
    | TriggerFind(id: Id) | TriggerMark(id: Id) | TriggerLock(id: Id) | TriggerSave(id: Id, job: Job)
    | RemoveAbort(id: Id) | RemoveJob(id: Id) | RemoveStored(id: Id) | Removed(id: Id, deleted: bool)
    | UpdateFetch(id: Id, settings: int)
    | Spawn(id: Id, job: Job) | WriteJob(id: Id, job: Job) | WriteStore(id: Id, job: Job)
    | Finished

  /** `used` holds every job id handed out so far. */
  datatype State = State(jobs: map<Id, Job>, store: map<Id, Job>, lock: Option<Pid>, tasks: map<Pid, Task>,
      used: set<Id>)

  /**
   * A request arrives; a task takes its next step, given the clock, the outcome of its store operation
   * and a name for the loop it may spawn; a loop is dropped, as an abort does at any of its awaits.
   */
  datatype Action = Arrive(pid: Pid, task: Task) | Go(pid: Pid, now: int, ok: bool, child: Pid) | Drop(pid: Pid)

  predicate Saving(t: Task) {
    t.LoopSave? || t.TriggerSave?
  }

  predicate IsLoop(t: Task) {
    t.LoopMark? || t.LoopLock? || t.LoopSave?
  }

  /** About to write the job to map or store without asking again whether it exists. */
  predicate Writing(t: Task, id: Id) {
    (t.Spawn? || t.WriteJob? || t.WriteStore? || t.Stray?) && t.id == id
  }

  predicate WriterOf(s: State, id: Id) {
    exists pid :: pid in s.tasks && Writing(s.tasks[pid], id)
  }

  predicate NeedsLock(t: Task) {
    || t.LoopMark? || t.LoopLock? || t.TriggerFind? || t.TriggerMark? || t.TriggerLock?
    || t.RemoveJob? || t.UpdateFetch? || t.WriteJob?
  }

  predicate Enabled(s: State, a: Action) {
    match a
    case Arrive(pid, t) =>
      && pid !in s.tasks
      && (t.TriggerFind? || t.RemoveAbort? || t.UpdateFetch? || (t.Spawn? && t.id !in s.used))
    case Go(pid, _, _, child) =>
      && pid in s.tasks && !s.tasks[pid].Finished? && !s.tasks[pid].Removed?
      && (NeedsLock(s.tasks[pid]) ==> s.lock == None)
      && (s.tasks[pid].Spawn? ==> child !in s.tasks)
    case Drop(pid) =>
      pid in s.tasks && IsLoop(s.tasks[pid])
  }

  function Goto(s: State, pid: Pid, t: Task): State {
    s.(tasks := s.tasks[pid := t])
  }

  /** `get_mut`: bump `last_run` of a job that is still there. */
  function Mark(s: State, id: Id, now: int): State {
    if id in s.jobs then s.(jobs := s.jobs[id := s.jobs[id].(lastRun := Some(now))]) else s
  }

  /** Take the jobs lock; keep it for the store write only when the job is still there. */
  function LockToSave(s: State, pid: Pid, id: Id, save: Task, otherwise: Task): State {
    if id in s.jobs then Goto(s, pid, save).(lock := Some(pid)) else Goto(s, pid, otherwise)
  }

  function Save(s: State, id: Id, job: Job, ok: bool): State {
    if ok then s.(store := s.store[id := job]) else s
  }

  predicate OfLoop(t: Task) {
    t.LoopMark? || t.LoopLock? || t.LoopSave? || t.Stray?
  }

  predicate OfTrigger(t: Task) {
    t.TriggerFind? || t.TriggerMark? || t.TriggerLock? || t.TriggerSave?
  }

  predicate OfRemoval(t: Task) {
    t.RemoveAbort? || t.RemoveJob? || t.RemoveStored?
  }

  function LoopStep(s: State, pid: Pid, now: int, ok: bool): State
    requires pid in s.tasks && OfLoop(s.tasks[pid])
  {
    match s.tasks[pid]
    case LoopMark(id) =>
      if id in s.jobs then Goto(Mark(s, id, now), pid, LoopLock(id)) else Goto(s, pid, Finished)
    case LoopLock(id) =>
      LockToSave(s, pid, id, if id in s.jobs then LoopSave(id, s.jobs[id]) else Finished, LoopMark(id))
    case LoopSave(id, job) => Goto(Save(s, id, job, ok), pid, LoopMark(id)).(lock := None)
    case Stray(id, job) => Goto(Save(s, id, job, ok), pid, Finished)
  }

  function TriggerStep(s: State, pid: Pid, now: int, ok: bool): State
    requires pid in s.tasks && OfTrigger(s.tasks[pid])
  {
    match s.tasks[pid]
    case TriggerFind(id) => Goto(s, pid, if id in s.jobs then TriggerMark(id) else Finished)
    case TriggerMark(id) => Goto(Mark(s, id, now), pid, TriggerLock(id))
    case TriggerLock(id) =>
      LockToSave(s, pid, id, if id in s.jobs then TriggerSave(id, s.jobs[id]) else Finished, Finished)
    case TriggerSave(id, job) => Goto(Save(s, id, job, ok), pid, Finished).(lock := None)
  }

  function RemovalStep(s: State, pid: Pid, ok: bool): State
    requires pid in s.tasks && OfRemoval(s.tasks[pid])
  {
    match s.tasks[pid]
    case RemoveAbort(id) => Goto(s, pid, RemoveJob(id))
    case RemoveJob(id) => Goto(s, pid, RemoveStored(id)).(jobs := s.jobs - {id})
    case RemoveStored(id) => Goto(if ok then s.(store := s.store - {id}) else s, pid, Removed(id, ok))
  }

  function UpdateStep(s: State, pid: Pid, ok: bool, child: Pid): State
    requires pid in s.tasks
  {
    match s.tasks[pid]
    case UpdateFetch(id, settings) =>
      Goto(s, pid, if id in s.jobs then Spawn(id, s.jobs[id].(settings := settings)) else Finished)
    case Spawn(id, job) => Goto(Goto(s, pid, WriteJob(id, job)), child, LoopMark(id))
    case WriteJob(id, job) => Goto(s, pid, WriteStore(id, job)).(jobs := s.jobs[id := job])
    case WriteStore(id, job) => Goto(Save(s, id, job, ok), pid, Finished)
    case _ => s
  }

  function Step(s: State, pid: Pid, now: int, ok: bool, child: Pid): State
    requires pid in s.tasks
  {
    var t := s.tasks[pid];
    if OfLoop(t) then LoopStep(s, pid, now, ok)
    else if OfTrigger(t) then TriggerStep(s, pid, now, ok)
    else if OfRemoval(t) then RemovalStep(s, pid, ok)
    else UpdateStep(s, pid, ok, child)
  }

  /** Where an abort leaves a loop. */
  function Dropped(t: Task): Task {
    if t.LoopSave? then Stray(t.id, t.job) else Finished
  }

  function Do(s: State, a: Action): State
    requires Enabled(s, a)
  {
    match a
    case Arrive(pid, t) => Goto(s, pid, t).(used := s.used + {t.id})
    case Go(pid, now, ok, child) => Step(s, pid, now, ok, child)
    case Drop(pid) =>
      var s' := Goto(s, pid, Dropped(s.tasks[pid]));
      if s.lock == Some(pid) then s'.(lock := None) else s'
  }

  function Run(s: State, actions: seq<Action>): Option<State> {
    if actions == [] then Some(s)
    else
      match Run(s, actions[..|actions| - 1])
      case Some(m) => if Enabled(m, actions[|actions| - 1]) then Some(Do(m, actions[|actions| - 1])) else None
      case None => None
  }

  /** The scheduler after `restore`: one loop per job of the map, nothing else under way. */
  ghost predicate Initial(s: State) {
    && s.lock == None
    && s.jobs.Keys + s.store.Keys <= s.used
    && (forall pid :: pid in s.tasks ==> s.tasks[pid].LoopMark? && s.tasks[pid].id in s.used)
  }

  /** A save holds the lock, and the job it saves is the one in the map. */
  ghost predicate LockInv(s: State) {
    && (forall pid :: pid in s.tasks && Saving(s.tasks[pid]) ==>
          s.lock == Some(pid) && s.tasks[pid].id in s.jobs && s.jobs[s.tasks[pid].id] == s.tasks[pid].job)
    && (s.lock.Some? ==> s.lock.value in s.tasks && Saving(s.tasks[s.lock.value]))
  }

  ghost predicate UsedInv(s: State) {
    && s.jobs.Keys + s.store.Keys <= s.used
    && forall pid :: pid in s.tasks && !s.tasks[pid].Finished? ==> s.tasks[pid].id in s.used
  }

  ghost predicate Inv(s: State) {
    LockInv(s) && UsedInv(s)
  }

  // ---- what a step can do ----

  predicate WriterStage(t: Task) {
    t.Spawn? || t.WriteJob? || t.WriteStore? || t.Stray?
  }

  /**
   * A step moves its own task and may spawn a loop; it puts into map and store only the job of its own task, and
   * starts to write only what it has just found in the map.
   */
  ghost predicate Frame(s: State, r: State, pid: Pid, child: Pid)
    requires pid in s.tasks
  {
    var t := s.tasks[pid];
    && r.used == s.used && pid in r.tasks
    && (forall p :: p in r.tasks && p != pid ==>
          if t.Spawn? && p == child then r.tasks[p] == LoopMark(t.id) else p in s.tasks && r.tasks[p] == s.tasks[p])
    && (forall p :: p in s.tasks ==> p in r.tasks)
    && (r.tasks[pid].Finished? || (!t.Finished? && r.tasks[pid].id == t.id))
    && (forall id :: id in r.jobs ==> id in s.jobs || (t.WriteJob? && id == t.id))
    && (forall id :: id in r.store ==> id in s.store || ((Saving(t) || WriterStage(t)) && id == t.id))
    && (WriterStage(r.tasks[pid]) ==> WriterStage(t) || (t.UpdateFetch? && t.id in s.jobs))
    && (r.tasks[pid].Spawn? || r.tasks[pid].WriteJob? ==> t.Spawn? || t.WriteJob? || (t.UpdateFetch? && t.id in s.jobs))
  }

  lemma LoopFrame(s: State, pid: Pid, now: int, ok: bool, child: Pid)
    requires pid in s.tasks && OfLoop(s.tasks[pid])
    ensures Frame(s, LoopStep(s, pid, now, ok), pid, child)
  {
  }

  lemma TriggerFrame(s: State, pid: Pid, now: int, ok: bool, child: Pid)
    requires pid in s.tasks && OfTrigger(s.tasks[pid])
    ensures Frame(s, TriggerStep(s, pid, now, ok), pid, child)
  {
  }

  lemma RemovalFrame(s: State, pid: Pid, ok: bool, child: Pid)
    requires pid in s.tasks && OfRemoval(s.tasks[pid])
    ensures Frame(s, RemovalStep(s, pid, ok), pid, child)
  {
  }

  lemma UpdateFrame(s: State, pid: Pid, ok: bool, child: Pid)
    requires pid in s.tasks && (s.tasks[pid].Spawn? ==> child !in s.tasks)
    ensures Frame(s, UpdateStep(s, pid, ok, child), pid, child)
  {
  }

  lemma StepFrame(s: State, pid: Pid, now: int, ok: bool, child: Pid)
    requires pid in s.tasks && (s.tasks[pid].Spawn? ==> child !in s.tasks)
    ensures Frame(s, Step(s, pid, now, ok, child), pid, child)
  {
    hide Frame, LoopStep, TriggerStep, RemovalStep, UpdateStep;
    var t := s.tasks[pid];
    if OfLoop(t) {
      LoopFrame(s, pid, now, ok, child);
    } else if OfTrigger(t) {
      TriggerFrame(s, pid, now, ok, child);
    } else if OfRemoval(t) {
      RemovalFrame(s, pid, ok, child);
    } else {
      UpdateFrame(s, pid, ok, child);
    }
  }

  // ---- the lock ----

  /** A step without the lock leaves lock and map alone; a save gives the lock back and leaves the map alone. */
  ghost predicate LockFrame(s: State, r: State, pid: Pid)
    requires pid in s.tasks
  {
    var t := s.tasks[pid];
    && (!NeedsLock(t) ==> r.jobs == s.jobs)
    && (!NeedsLock(t) && !Saving(t) ==> r.lock == s.lock)
    && (Saving(t) ==> r.lock == None)
    && pid in r.tasks
    && (if Saving(r.tasks[pid])
        then r.lock == Some(pid) && r.tasks[pid].id in r.jobs && r.jobs[r.tasks[pid].id] == r.tasks[pid].job
        else NeedsLock(t) ==> r.lock == s.lock)
  }

  lemma LoopLocks(s: State, pid: Pid, now: int, ok: bool)
    requires pid in s.tasks && OfLoop(s.tasks[pid])
    ensures LockFrame(s, LoopStep(s, pid, now, ok), pid)
  {
  }

  lemma TriggerLocks(s: State, pid: Pid, now: int, ok: bool)
    requires pid in s.tasks && OfTrigger(s.tasks[pid])
    ensures LockFrame(s, TriggerStep(s, pid, now, ok), pid)
  {
  }

  lemma OthersLock(s: State, pid: Pid, ok: bool, child: Pid)
    requires pid in s.tasks && (s.tasks[pid].Spawn? ==> child != pid)
    requires !OfLoop(s.tasks[pid]) && !OfTrigger(s.tasks[pid])
    ensures OfRemoval(s.tasks[pid]) ==> LockFrame(s, RemovalStep(s, pid, ok), pid)
    ensures !OfRemoval(s.tasks[pid]) ==> LockFrame(s, UpdateStep(s, pid, ok, child), pid)
  {
  }

  lemma StepLocks(s: State, pid: Pid, now: int, ok: bool, child: Pid)
    requires pid in s.tasks && (s.tasks[pid].Spawn? ==> child !in s.tasks)
    ensures LockFrame(s, Step(s, pid, now, ok, child), pid)
  {
    hide LockFrame, LoopStep, TriggerStep, RemovalStep, UpdateStep;
    if OfLoop(s.tasks[pid]) {
      LoopLocks(s, pid, now, ok);
    } else if OfTrigger(s.tasks[pid]) {
      TriggerLocks(s, pid, now, ok);
    } else {
      OthersLock(s, pid, ok, child);
    }
  }

  lemma LockKept(s: State, a: Action)
    requires LockInv(s) && Enabled(s, a)
    ensures LockInv(Do(s, a))
  {
    if a.Go? { LockKeptByStep(s, a.pid, a.now, a.ok, a.child); }
    hide Step;
  }

  lemma LockKeptByStep(s: State, pid: Pid, now: int, ok: bool, child: Pid)
    requires LockInv(s) && Enabled(s, Go(pid, now, ok, child))
    ensures LockInv(Step(s, pid, now, ok, child))
  {
    StepFrame(s, pid, now, ok, child);
    StepLocks(s, pid, now, ok, child);
    hide Step;
    var s' := Step(s, pid, now, ok, child);
    forall p | p in s'.tasks && Saving(s'.tasks[p])
      ensures s'.lock == Some(p) && s'.tasks[p].id in s'.jobs && s'.jobs[s'.tasks[p].id] == s'.tasks[p].job
    {
      if p != pid { assert s.lock == Some(p); }
    }
  }

  lemma UsedKept(s: State, a: Action)
    requires UsedInv(s) && Enabled(s, a)
    ensures UsedInv(Do(s, a))
  {
    if a.Go? { UsedKeptByStep(s, a.pid, a.now, a.ok, a.child); }
    hide Step;
  }

  lemma UsedKeptByStep(s: State, pid: Pid, now: int, ok: bool, child: Pid)
    requires UsedInv(s) && Enabled(s, Go(pid, now, ok, child))
    ensures UsedInv(Step(s, pid, now, ok, child))
  {
    StepFrame(s, pid, now, ok, child);
    hide Step, NeedsLock;
    var s' := Step(s, pid, now, ok, child);
    assert s.tasks[pid].id in s.used;
    assert forall id :: id in s'.jobs || id in s'.store ==> id in s'.used;
  }

  lemma {:induction false} InvKept(s: State, actions: seq<Action>)
    requires Inv(s) && Run(s, actions).Some?
    ensures Inv(Run(s, actions).value)
  {
    if actions != [] {
      var m, a := Run(s, actions[..|actions| - 1]).value, actions[|actions| - 1];
      InvKept(s, actions[..|actions| - 1]);
      LockKept(m, a);
      UsedKept(m, a);
    }
  }

  /** In every interleaving, saves hold the jobs lock with the job present, and ids are never reused. */
  lemma InvHolds(s: State, actions: seq<Action>)
    requires Initial(s) && Run(s, actions).Some?
    ensures Inv(Run(s, actions).value)
  {
    InvKept(s, actions);
  }

  /** A store write of the loop or of a manual trigger saves the job as the map has it. */
  lemma SavesWhatTheMapHolds(s: State, actions: seq<Action>, pid: Pid)
    requires Initial(s) && Run(s, actions).Some?
    requires var m := Run(s, actions).value; pid in m.tasks && Saving(m.tasks[pid])
    ensures var m := Run(s, actions).value;
      m.tasks[pid].id in m.jobs && m.jobs[m.tasks[pid].id] == m.tasks[pid].job
  {
    InvHolds(s, actions);
  }

  // ---- a removal that nobody is writing over ----

  /** Taken out of the map by `remover`, and out of the store once its delete has succeeded. */
  ghost predicate Gone(s: State, remover: Pid, id: Id) {
    && id !in s.jobs && id in s.used && !WriterOf(s, id)
    && remover in s.tasks && s.tasks[remover] in {RemoveStored(id), Removed(id, true), Removed(id, false)}
    && (s.tasks[remover] == Removed(id, true) ==> id !in s.store)
  }

  lemma NoNewWriter(s: State, a: Action, id: Id)
    requires Inv(s) && Enabled(s, a) && !WriterOf(s, id) && id !in s.jobs && id in s.used
    ensures !WriterOf(Do(s, a), id) && id !in Do(s, a).jobs
  {
    var s' := Do(s, a);
    assert forall pid :: pid in s.tasks ==> !Writing(s.tasks[pid], id);
    if a.Go? {
      StepFrame(s, a.pid, a.now, a.ok, a.child);
      hide Step;
    }
    assert a.Drop? && s.tasks[a.pid].LoopSave? ==> s.tasks[a.pid].id != id;
    assert forall pid :: pid in s'.tasks ==> !Writing(s'.tasks[pid], id);
  }

  lemma StaysDeleted(s: State, a: Action, id: Id)
    requires Inv(s) && Enabled(s, a) && !WriterOf(s, id) && id !in s.jobs && id !in s.store
    ensures id !in Do(s, a).store
  {
    if a.Go? {
      StepFrame(s, a.pid, a.now, a.ok, a.child);
      hide Step;
      assert !Writing(s.tasks[a.pid], id);
    }
  }

  lemma GoneKept(s: State, a: Action, remover: Pid, id: Id)
    requires Inv(s) && Enabled(s, a) && Gone(s, remover, id)
    ensures Gone(Do(s, a), remover, id)
  {
    NoNewWriter(s, a, id);
    if id !in s.store { StaysDeleted(s, a, id); }
    RemoverMoves(s, a, remover, id);
    hide WriterOf, Inv, Do, Enabled;
  }

  lemma RemoverMoves(s: State, a: Action, remover: Pid, id: Id)
    requires Enabled(s, a) && remover in s.tasks
    requires s.tasks[remover] in {RemoveStored(id), Removed(id, true), Removed(id, false)}
    ensures id in s.used ==> id in Do(s, a).used
    ensures remover in Do(s, a).tasks
    ensures Do(s, a).tasks[remover] in {RemoveStored(id), Removed(id, true), Removed(id, false)}
    ensures Do(s, a).tasks[remover] == Removed(id, true) ==>
      s.tasks[remover] == Removed(id, true) || id !in Do(s, a).store
  {
    if a.Go? && a.pid != remover {
      StepFrame(s, a.pid, a.now, a.ok, a.child);
      hide Step;
    }
  }

  lemma {:induction false} GoneForGood(s: State, actions: seq<Action>, remover: Pid, id: Id)
    requires Inv(s) && Gone(s, remover, id) && Run(s, actions).Some?
    ensures Gone(Run(s, actions).value, remover, id)
  {
    if actions != [] {
      var init := actions[..|actions| - 1];
      GoneForGood(s, init, remover, id);
      InvKept(s, init);
      hide Gone, Inv;
      GoneKept(Run(s, init).value, actions[|actions| - 1], remover, id);
    }
  }

  // ---- a removal that somebody is writing over ----

  lemma RunCons(s: State, a: Action, rest: seq<Action>)
    requires Enabled(s, a)
    ensures Run(s, [a] + rest) == Run(Do(s, a), rest)
    decreases |rest|
  {
    var all := [a] + rest;
    if rest == [] {
      assert all == [a] && [a][..0] == [];
    } else {
      assert all[..|all| - 1] == [a] + rest[..|rest| - 1];
      RunCons(s, a, rest[..|rest| - 1]);
    }
  }

  lemma {:induction false} Above(pids: set<Pid>) returns (bound: Pid)
    ensures forall p :: p in pids ==> p < bound
  {
    bound := 0;
    if pids != {} {
      var p :| p in pids;
      bound := Above(pids - {p});
      if bound <= p { bound := p + 1; }
      assert pids == pids - {p} + {p};
    }
  }

  /** Left alone, a writer brings the job into the store; the other tasks stay where they are. */
  lemma {:induction false} WriterLands(s: State, w: Pid, id: Id) returns (more: seq<Action>)
    requires w in s.tasks && Writing(s.tasks[w], id) && s.lock == None
    ensures Run(s, more).Some? && id in Run(s, more).value.store
    ensures forall p :: p in s.tasks && p != w ==>
      p in Run(s, more).value.tasks && Run(s, more).value.tasks[p] == s.tasks[p]
    decreases if s.tasks[w].Spawn? then 2 else if s.tasks[w].WriteJob? then 1 else 0
  {
    var child := Above(s.tasks.Keys);
    var a := Go(w, 0, true, child);
    var s' := Do(s, a);
    if s.tasks[w].Spawn? || s.tasks[w].WriteJob? {
      var rest := WriterLands(s', w, id);
      more := [a] + rest;
      RunCons(s, a, rest);
    } else {
      more := [a];
      RunCons(s, a, []);
      assert [a] + [] == [a];
    }
  }

  /** Whatever happens after state `s`, a removal that reports its delete done has the job out of map and store. */
  ghost predicate StaysOut(s: State, remover: Pid, id: Id) {
    forall more :: Run(s, more).Some? && IsRemoved(Run(s, more).value, remover, id) ==>
      id !in Run(s, more).value.jobs && id !in Run(s, more).value.store
  }

  ghost predicate IsRemoved(s: State, remover: Pid, id: Id) {
    remover in s.tasks && s.tasks[remover] == Removed(id, true)
  }

  lemma UnhinderedStaysOut(s: State, remover: Pid, id: Id)
    requires Inv(s) && Gone(s, remover, id)
    ensures StaysOut(s, remover, id)
  {
    hide Inv, Gone, Run;
    forall more | Run(s, more).Some? && IsRemoved(Run(s, more).value, remover, id)
      ensures id !in Run(s, more).value.jobs && id !in Run(s, more).value.store
    {
      GoneForGood(s, more, remover, id);
      GoneIsOut(Run(s, more).value, remover, id);
    }
  }

  lemma GoneIsOut(s: State, remover: Pid, id: Id)
    requires Gone(s, remover, id) && IsRemoved(s, remover, id)
    ensures id !in s.jobs && id !in s.store
  {
  }

  lemma HinderedComesBack(s: State, remover: Pid, w: Pid, id: Id)
    requires s.lock == None && remover in s.tasks && s.tasks[remover] == RemoveStored(id)
    requires w in s.tasks && Writing(s.tasks[w], id)
    ensures !StaysOut(s, remover, id)
  {
    var a := Go(remover, 0, true, 0);
    var s' := Do(s, a);
    var rest := WriterLands(s', w, id);
    RunCons(s, a, rest);
    assert IsRemoved(Run(s, [a] + rest).value, remover, id);
  }

  /**
   * In every interleaving, at the moment a removal takes its job out of the map: the job stays out of map and
   * store, whatever comes next, exactly when no update, addition or aborted save of it is under way.
   */
  lemma RemovedStaysRemovedIff(start: State, actions: seq<Action>, remover: Pid, id: Id, now: int, ok: bool, child: Pid)
    requires Initial(start) && Run(start, actions).Some?
    requires var s := Run(start, actions).value;
      remover in s.tasks && s.tasks[remover] == RemoveJob(id) && s.lock == None
    ensures var s := Run(start, actions).value;
      StaysOut(Do(s, Go(remover, now, ok, child)), remover, id) <==> !WriterOf(s, id)
  {
    InvHolds(start, actions);
    hide Run, Initial, StaysOut;
    var s := Run(start, actions).value;
    var a := Go(remover, now, ok, child);
    assert Do(s, a) == Do(s, Go(remover, 0, true, 0));
    LockKept(s, a);
    UsedKept(s, a);
    if WriterOf(s, id) {
      var w :| w in s.tasks && Writing(s.tasks[w], id);
      HinderedComesBack(Do(s, a), remover, w, id);
    } else {
      TakenOut(s, remover, id);
      UnhinderedStaysOut(Do(s, a), remover, id);
    }
  }

  lemma TakenOut(s: State, remover: Pid, id: Id)
    requires Inv(s) && remover in s.tasks && s.tasks[remover] == RemoveJob(id) && s.lock == None && !WriterOf(s, id)
    ensures Gone(Do(s, Go(remover, 0, true, 0)), remover, id)
  {
    var s' := Do(s, Go(remover, 0, true, 0));
    assert forall pid :: pid in s.tasks ==> !Writing(s.tasks[pid], id);
    assert forall pid :: pid in s'.tasks ==> !Writing(s'.tasks[pid], id);
  }

  // ---- the map alone ----

  /** An update or addition that has not yet put its job into the map. */
  predicate Inserting(t: Task, id: Id) {
    (t.Spawn? || t.WriteJob?) && t.id == id
  }

  predicate InserterOf(s: State, id: Id) {
    exists pid :: pid in s.tasks && Inserting(s.tasks[pid], id)
  }

  ghost predicate OutOfMap(s: State, id: Id) {
    id !in s.jobs && id in s.used && !InserterOf(s, id)
  }

  lemma OutOfMapKept(s: State, a: Action, id: Id)
    requires UsedInv(s) && Enabled(s, a) && OutOfMap(s, id)
    ensures OutOfMap(Do(s, a), id)
  {
    var s' := Do(s, a);
    assert forall pid :: pid in s.tasks ==> !Inserting(s.tasks[pid], id);
    if a.Go? {
      StepFrame(s, a.pid, a.now, a.ok, a.child);
      hide Step;
    }
    assert forall pid :: pid in s'.tasks ==> !Inserting(s'.tasks[pid], id);
  }

  lemma {:induction false} OutOfMapForGood(s: State, actions: seq<Action>, id: Id)
    requires Inv(s) && OutOfMap(s, id) && Run(s, actions).Some?
    ensures OutOfMap(Run(s, actions).value, id)
  {
    if actions != [] {
      var init := actions[..|actions| - 1];
      OutOfMapForGood(s, init, id);
      InvKept(s, init);
      hide OutOfMap;
      OutOfMapKept(Run(s, init).value, actions[|actions| - 1], id);
    }
  }

  lemma InserterInserts(s: State, w: Pid, id: Id) returns (more: seq<Action>)
    requires w in s.tasks && Inserting(s.tasks[w], id) && s.lock == None
    ensures Run(s, more).Some? && id in Run(s, more).value.jobs
    decreases s.tasks[w].Spawn?
  {
    var child := Above(s.tasks.Keys);
    var a := Go(w, 0, true, child);
    if s.tasks[w].Spawn? {
      var rest := InserterInserts(Do(s, a), w, id);
      more := [a] + rest;
      RunCons(s, a, rest);
    } else {
      more := [a];
      RunCons(s, a, []);
      assert [a] + [] == [a];
    }
  }

  /** The map alone: it never holds the job again exactly when no update or addition has yet to put it there. */
  lemma MapStaysWithoutIff(start: State, actions: seq<Action>, remover: Pid, id: Id, now: int, ok: bool, child: Pid)
    requires Initial(start) && Run(start, actions).Some?
    requires var s := Run(start, actions).value;
      remover in s.tasks && s.tasks[remover] == RemoveJob(id) && s.lock == None
    ensures var s := Run(start, actions).value; var s' := Do(s, Go(remover, now, ok, child));
      (forall more :: Run(s', more).Some? ==> id !in Run(s', more).value.jobs) <==> !InserterOf(s, id)
  {
    InvHolds(start, actions);
    var s := Run(start, actions).value;
    var a := Go(remover, now, ok, child);
    var s' := Do(s, a);
    LockKept(s, a);
    UsedKept(s, a);
    hide Run, Initial;
    if InserterOf(s, id) {
      var w :| w in s.tasks && Inserting(s.tasks[w], id);
      var more := InserterInserts(s', w, id);
    } else {
      assert forall pid :: pid in s.tasks ==> !Inserting(s.tasks[pid], id);
      assert forall pid :: pid in s'.tasks ==> !Inserting(s'.tasks[pid], id);
      assert OutOfMap(s', id);
      forall more | Run(s', more).Some? ensures id !in Run(s', more).value.jobs { OutOfMapForGood(s', more, id); }
    }
  }

  // ---- what a task leaves behind ----

  /** Steps of one task and of nothing else. */
  predicate OwnSteps(go: seq<Action>, pid: Pid) {
    forall i :: 0 <= i < |go| ==> go[i].Go? && go[i].pid == pid
  }

  lemma RunFirst(s: State, go: seq<Action>, r: State)
    requires go != [] && Enabled(s, go[0]) && Do(s, go[0]) == r
    ensures Run(s, go) == if |go| == 1 then Some(r) else Run(r, go[1..])
  {
    RunCons(s, go[0], go[1..]);
    assert [go[0]] + go[1..] == go;
  }

  /** A trigger loop marks its job and saves it: map and store have the new last run, and all else as before. */
  lemma LoopRuns(s: State, pid: Pid, id: Id, go: seq<Action>)
    requires pid in s.tasks && s.tasks[pid] == LoopMark(id) && id in s.jobs && s.lock == None
    requires OwnSteps(go, pid) && |go| == 3
    ensures var marked := Job(Some(go[0].now), s.jobs[id].settings);
      Run(s, go) == Some(s.(jobs := s.jobs[id := marked], store := if go[2].ok then s.store[id := marked] else s.store))
  {
    hide Run;
    var marked := Job(Some(go[0].now), s.jobs[id].settings);
    var s1 := s.(jobs := s.jobs[id := marked], tasks := s.tasks[pid := LoopLock(id)]);
    RunFirst(s, go, s1);
    var s2 := s1.(lock := Some(pid), tasks := s.tasks[pid := LoopSave(id, marked)]);
    assert s1.tasks[pid := LoopSave(id, marked)] == s2.tasks;
    RunFirst(s1, go[1..], s2);
    assert s2.tasks[pid := LoopMark(id)] == s.tasks;
    RunFirst(s2, go[2..], s.(jobs := s1.jobs, store := if go[2].ok then s.store[id := marked] else s.store));
  }

  lemma MarkedAndSaved(s: State, pid: Pid, id: Id, go: seq<Action>)
    requires pid in s.tasks && s.tasks[pid] == TriggerMark(id) && id in s.jobs && s.lock == None
    requires OwnSteps(go, pid) && |go| == 3
    ensures var marked := Job(Some(go[0].now), s.jobs[id].settings);
      Run(s, go) == Some(s.(jobs := s.jobs[id := marked], store := if go[2].ok then s.store[id := marked] else s.store,
                            tasks := s.tasks[pid := Finished]))
  {
    hide Run;
    var marked := Job(Some(go[0].now), s.jobs[id].settings);
    var s1 := s.(jobs := s.jobs[id := marked], tasks := s.tasks[pid := TriggerLock(id)]);
    RunFirst(s, go, s1);
    var s2 := s1.(lock := Some(pid), tasks := s.tasks[pid := TriggerSave(id, marked)]);
    assert s1.tasks[pid := TriggerSave(id, marked)] == s2.tasks;
    RunFirst(s1, go[1..], s2);
    assert s2.tasks[pid := Finished] == s.tasks[pid := Finished];
    RunFirst(s2, go[2..], s.(jobs := s1.jobs, store := if go[2].ok then s.store[id := marked] else s.store,
                             tasks := s.tasks[pid := Finished]));
  }

  /** So does a manual trigger, which is done then. */
  lemma TriggerRuns(s: State, pid: Pid, id: Id, go: seq<Action>)
    requires pid in s.tasks && s.tasks[pid] == TriggerFind(id) && id in s.jobs && s.lock == None
    requires OwnSteps(go, pid) && |go| == 4
    ensures var marked := Job(Some(go[1].now), s.jobs[id].settings);
      Run(s, go) == Some(s.(jobs := s.jobs[id := marked], store := if go[3].ok then s.store[id := marked] else s.store,
                            tasks := s.tasks[pid := Finished]))
  {
    hide Run;
    var s1 := s.(tasks := s.tasks[pid := TriggerMark(id)]);
    RunFirst(s, go, s1);
    MarkedAndSaved(s1, pid, id, go[1..]);
    assert s1.tasks[pid := Finished] == s.tasks[pid := Finished];
  }

  /** Without its job, loop, manual trigger and update end and change nothing. */
  lemma NothingToDo(s: State, pid: Pid, go: Action)
    requires pid in s.tasks && s.lock == None && go.Go? && go.pid == pid
    requires s.tasks[pid].LoopMark? || s.tasks[pid].TriggerFind? || s.tasks[pid].UpdateFetch?
    requires s.tasks[pid].id !in s.jobs
    ensures Run(s, [go]) == Some(s.(tasks := s.tasks[pid := Finished]))
  {
    RunFirst(s, [go], Do(s, go));
  }

  lemma Written(s: State, pid: Pid, id: Id, job: Job, go: seq<Action>)
    requires pid in s.tasks && s.tasks[pid] == WriteJob(id, job) && s.lock == None
    requires OwnSteps(go, pid) && |go| == 2
    ensures Run(s, go) == Some(s.(jobs := s.jobs[id := job], store := if go[1].ok then s.store[id := job] else s.store,
                                  tasks := s.tasks[pid := Finished]))
  {
    hide Run;
    var s1 := s.(jobs := s.jobs[id := job], tasks := s.tasks[pid := WriteStore(id, job)]);
    RunFirst(s, go, s1);
    assert s1.tasks[pid := Finished] == s.tasks[pid := Finished];
    RunFirst(s1, go[1..], s.(jobs := s1.jobs, store := if go[1].ok then s.store[id := job] else s.store,
                             tasks := s.tasks[pid := Finished]));
  }

  /** An addition puts its job into map and store and leaves a new loop behind. */
  lemma AdditionRuns(s: State, pid: Pid, id: Id, job: Job, go: seq<Action>)
    requires pid in s.tasks && s.tasks[pid] == Spawn(id, job) && s.lock == None
    requires OwnSteps(go, pid) && |go| == 3 && go[0].child !in s.tasks
    ensures Run(s, go) == Some(s.(jobs := s.jobs[id := job], store := if go[2].ok then s.store[id := job] else s.store,
                                  tasks := s.tasks[pid := Finished][go[0].child := LoopMark(id)]))
  {
    hide Run;
    var s1 := s.(tasks := s.tasks[pid := WriteJob(id, job)][go[0].child := LoopMark(id)]);
    RunFirst(s, go, s1);
    Written(s1, pid, id, job, go[1..]);
    assert s1.tasks[pid := Finished] == s.tasks[pid := Finished][go[0].child := LoopMark(id)];
  }

  /** An update gives the job exactly the new settings, keeps its last run, and leaves a new loop behind. */
  lemma UpdateRuns(s: State, pid: Pid, id: Id, settings: int, go: seq<Action>)
    requires pid in s.tasks && s.tasks[pid] == UpdateFetch(id, settings) && id in s.jobs && s.lock == None
    requires OwnSteps(go, pid) && |go| == 4 && go[1].child !in s.tasks
    ensures var updated := Job(s.jobs[id].lastRun, settings);
      Run(s, go) == Some(s.(
        jobs := s.jobs[id := updated], store := if go[3].ok then s.store[id := updated] else s.store,
        tasks := s.tasks[pid := Finished][go[1].child := LoopMark(id)]))
  {
    hide Run;
    var updated := Job(s.jobs[id].lastRun, settings);
    var s1 := s.(tasks := s.tasks[pid := Spawn(id, updated)]);
    RunFirst(s, go, s1);
    AdditionRuns(s1, pid, id, updated, go[1..]);
    assert s1.tasks[pid := Finished] == s.tasks[pid := Finished];
  }

  /** A removal takes the job out of map and store, or reports that its delete failed. */
  lemma RemovalRuns(s: State, pid: Pid, id: Id, go: seq<Action>)
    requires pid in s.tasks && s.tasks[pid] == RemoveAbort(id) && s.lock == None
    requires OwnSteps(go, pid) && |go| == 3
    ensures Run(s, go) == Some(s.(jobs := s.jobs - {id}, store := if go[2].ok then s.store - {id} else s.store,
                                  tasks := s.tasks[pid := Removed(id, go[2].ok)]))
  {
    hide Run;
    var s1 := s.(tasks := s.tasks[pid := RemoveJob(id)]);
    RunFirst(s, go, s1);
    var s2 := s.(jobs := s.jobs - {id}, tasks := s.tasks[pid := RemoveStored(id)]);
    assert s1.tasks[pid := RemoveStored(id)] == s2.tasks;
    RunFirst(s1, go[1..], s2);
    assert s2.tasks[pid := Removed(id, go[2].ok)] == s.tasks[pid := Removed(id, go[2].ok)];
    RunFirst(s2, go[2..], s.(jobs := s.jobs - {id}, store := if go[2].ok then s.store - {id} else s.store,
                             tasks := s.tasks[pid := Removed(id, go[2].ok)]));
  }

  /** An abort ends a loop and frees its lock; a save that it cuts off may still land, later. */
  lemma AbortRuns(s: State, pid: Pid, id: Id, go: Action)
    requires pid in s.tasks && IsLoop(s.tasks[pid]) && s.tasks[pid].id == id
    requires s.lock == (if s.tasks[pid].LoopSave? then Some(pid) else None) && go.Go? && go.pid == pid
    ensures !s.tasks[pid].LoopSave? ==> Run(s, [Drop(pid)]) == Some(s.(tasks := s.tasks[pid := Finished]))
    ensures s.tasks[pid].LoopSave? ==>
      var job := s.tasks[pid].job;
      Run(s, [Drop(pid), go]) == Some(s.(lock := None, store := if go.ok then s.store[id := job] else s.store,
                                         tasks := s.tasks[pid := Finished]))
  {
    var s1 := Do(s, Drop(pid));
    RunFirst(s, [Drop(pid)], s1);
    if s.tasks[pid].LoopSave? {
      hide Run;
      RunFirst(s, [Drop(pid), go], s1);
      assert s1.tasks[pid := Finished] == s.tasks[pid := Finished] && [Drop(pid), go][1..] == [go];
      RunFirst(s1, [go], Do(s1, go));
    }
  }

  // ---- an update among others ----

  /** An update that is past its fetch, on its way to write `job`, or done. */
  predicate Carries(s: State, pid: Pid, id: Id, job: Job) {
    pid in s.tasks && s.tasks[pid] in {Spawn(id, job), WriteJob(id, job), WriteStore(id, job), Finished}
  }

  lemma CarriesOn(s: State, a: Action, pid: Pid, id: Id, job: Job)
    requires Enabled(s, a) && Carries(s, pid, id, job)
    ensures Carries(Do(s, a), pid, id, job)
  {
    if a.Go? && a.pid != pid {
      StepFrame(s, a.pid, a.now, a.ok, a.child);
      hide Step;
    }
  }

  lemma {:induction false} CarriesToTheEnd(s: State, actions: seq<Action>, pid: Pid, id: Id, job: Job)
    requires Carries(s, pid, id, job) && Run(s, actions).Some?
    ensures Carries(Run(s, actions).value, pid, id, job)
  {
    if actions != [] {
      CarriesToTheEnd(s, actions[..|actions| - 1], pid, id, job);
      hide Carries;
      CarriesOn(Run(s, actions[..|actions| - 1]).value, actions[|actions| - 1], pid, id, job);
    }
  }

  /**
   * Whatever the other tasks do in between, an update writes the new settings with the last run it has fetched: a
   * run that was marked in between is kept exactly when it left the last run as it was.
   */
  lemma UpdateKeepsLastRunIff(s: State, pid: Pid, id: Id, settings: int,
      fetch: Action, others: seq<Action>, write: Action)
    requires pid in s.tasks && s.tasks[pid] == UpdateFetch(id, settings) && id in s.jobs
    requires OwnSteps([fetch, write], pid) && Enabled(s, fetch)
    requires Run(Do(s, fetch), others).Some?
    requires var m := Run(Do(s, fetch), others).value;
      pid in m.tasks && m.tasks[pid].WriteJob? && Enabled(m, write) && id in m.jobs
    ensures var m := Run(Do(s, fetch), others).value; var r := Do(m, write);
      && r.jobs == m.jobs[id := Job(s.jobs[id].lastRun, settings)]
      && (r.jobs[id].lastRun == m.jobs[id].lastRun <==> m.jobs[id].lastRun == s.jobs[id].lastRun)
  {
    var job := Job(s.jobs[id].lastRun, settings);
    assert [fetch, write][0] == fetch && [fetch, write][1] == write;
    CarriesToTheEnd(Do(s, fetch), others, pid, id, job);
    hide Run;
    assert Run(Do(s, fetch), others).value.tasks[pid] == WriteJob(id, job);
  }

  predicate By(a: Action, pid: Pid) {
    a.Go? && a.pid == pid
  }

  /** A manual run marks the job while an update is under way: the update takes the mark back. */
  lemma MarkForgotten(s: State, update: Pid, run: Pid, id: Id, settings: int, go: seq<Action>)
    requires update in s.tasks && s.tasks[update] == UpdateFetch(id, settings)
    requires run in s.tasks && s.tasks[run] == TriggerMark(id) && id in s.jobs && s.lock == None
    requires |go| == 4 && By(go[0], update) && By(go[1], run) && By(go[2], update) && By(go[3], update)
    requires go[2].child !in s.tasks
    ensures var m := Run(s, go[..2]); m.Some? && m.value.jobs == s.jobs[id := Job(Some(go[1].now), s.jobs[id].settings)]
    ensures var r := Run(s, go); r.Some? && r.value.jobs == s.jobs[id := Job(s.jobs[id].lastRun, settings)]
  {
    hide Run;
    var job := Job(s.jobs[id].lastRun, settings);
    var s1 := s.(tasks := s.tasks[update := Spawn(id, job)]);
    var s2 := s1.(jobs := s.jobs[id := Job(Some(go[1].now), s.jobs[id].settings)],
                  tasks := s1.tasks[run := TriggerLock(id)]);
    var s3 := s2.(tasks := s2.tasks[update := WriteJob(id, job)][go[2].child := LoopMark(id)]);
    RunFirst(s, go[..2], s1);
    assert go[..2][1..] == [go[1]];
    RunFirst(s1, [go[1]], s2);
    RunFirst(s, go, s1);
    RunFirst(s1, go[1..], s2);
    RunFirst(s2, go[2..], s3);
    RunFirst(s3, go[3..], s3.(jobs := s3.jobs[id := job], tasks := s3.tasks[update := WriteStore(id, job)]));
  }
}
