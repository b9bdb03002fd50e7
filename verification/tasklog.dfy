/** A background task's event log, its live broadcast, and the connections that replay the one and
    then follow the other. */
module TaskLog {
  import opened Options

  type Event = string
  type ConnId = nat
  type Emitter = nat

  /** Slots of the broadcast channel; a receiver further behind than this has lagged. */
  const CAPACITY: nat := 4096

  /** A connection: what it has sent to its client, what is left of its replay, where it stands in the
      broadcast, and whether it is still attached. */
  datatype Conn = Conn(delivered: seq<Event>, replay: seq<Event>, pos: nat, attached: bool)

  /** An event that has been broadcast, as number `at`, and not yet appended. */
  datatype Flight = Flight(event: Event, at: nat)

  /** `sent` is everything ever broadcast; an emitter between its broadcast and its append is in flight. */
  datatype State = State(log: seq<Event>, sent: seq<Event>, inFlight: map<Emitter, Flight>, conns: map<ConnId, Conn>)

  /** `emit` as written takes two steps, the broadcast and then, under the lock, the append. Attaching
      subscribes and copies the log, both under the lock. */
  datatype Action =
    | Broadcast(emitter: Emitter, event: Event)
    | Append(emitter: Emitter)
    | Attach(conn: ConnId)
    | Replay(conn: ConnId)
    | Receive(conn: ConnId)
    | Leave(conn: ConnId)

  const START: State := State([], [], map[], map[])

  predicate Enabled(s: State, a: Action) {
    match a
    case Broadcast(w, _) => w !in s.inFlight
    case Append(w) => w in s.inFlight
    case Attach(c) => c !in s.conns
    case Replay(c) => c in s.conns && s.conns[c].attached && s.conns[c].replay != []
    case Receive(c) => c in s.conns && s.conns[c].attached && s.conns[c].replay == [] && s.conns[c].pos < |s.sent|
    case Leave(c) => c in s.conns
  }

  function ReceiveOne(s: State, k: Conn): Conn
    requires k.pos < |s.sent|
  {
    if k.pos + CAPACITY < |s.sent| then k.(attached := false)
    else k.(delivered := k.delivered + [s.sent[k.pos]], pos := k.pos + 1)
  }

  function Do(s: State, a: Action): State
    requires Enabled(s, a)
  {
    match a
    case Broadcast(w, e) => s.(sent := s.sent + [e], inFlight := s.inFlight[w := Flight(e, |s.sent|)])
    case Append(w) => s.(log := s.log + [s.inFlight[w].event], inFlight := s.inFlight - {w})
    case Attach(c) => s.(conns := s.conns[c := Conn([], s.log, |s.sent|, true)])
    case Replay(c) =>
      var k := s.conns[c];
      s.(conns := s.conns[c := k.(delivered := k.delivered + [k.replay[0]], replay := k.replay[1..])])
    case Receive(c) => s.(conns := s.conns[c := ReceiveOne(s, s.conns[c])])
    case Leave(c) => s.(conns := s.conns[c := s.conns[c].(attached := false)])
  }

  function Run(actions: seq<Action>): Option<State> {
    if actions == [] then Some(START)
    else
      match Run(actions[..|actions| - 1])
      case Some(s) => if Enabled(s, actions[|actions| - 1]) then Some(Do(s, actions[|actions| - 1])) else None
      case None => None
  }

  // ---- the lock held across both steps of emit ----

  /** With the lock around broadcast and append, no emitter and no attacher comes in between. */
  predicate Excluded(s: State, a: Action) {
    (a.Broadcast? || a.Attach?) && s.inFlight != map[]
  }

  predicate Locked(actions: seq<Action>) {
    actions != [] ==>
      && Locked(actions[..|actions| - 1])
      && (Run(actions[..|actions| - 1]).Some? ==>
            !Excluded(Run(actions[..|actions| - 1]).value, actions[|actions| - 1]))
  }

  /** The log, with the event an emitter holding the lock is about to append. */
  ghost predicate LogMatchesBroadcast(s: State) {
    || (s.inFlight == map[] && s.sent == s.log)
    || exists w :: w in s.inFlight && s.inFlight.Keys == {w} && s.sent == s.log + [s.inFlight[w].event]
  }

  /** What a connection has delivered, and has yet to replay, is the broadcast up to its place. */
  ghost predicate InStep(s: State, k: Conn) {
    k.pos <= |s.sent| && k.delivered + k.replay == s.sent[..k.pos]
  }

  ghost predicate Inv(s: State) {
    LogMatchesBroadcast(s) && forall c :: c in s.conns ==> InStep(s, s.conns[c])
  }

  lemma LogKept(s: State, a: Action)
    requires LogMatchesBroadcast(s) && Enabled(s, a) && !Excluded(s, a)
    ensures LogMatchesBroadcast(Do(s, a))
  {
  }

  lemma ConnKept(s: State, a: Action, c: ConnId)
    requires Inv(s) && Enabled(s, a) && !Excluded(s, a) && c in Do(s, a).conns
    ensures InStep(Do(s, a), Do(s, a).conns[c])
  {
  }

  lemma {:induction false} InvHolds(actions: seq<Action>)
    requires Run(actions).Some? && Locked(actions)
    ensures Inv(Run(actions).value)
  {
    if actions != [] {
      InvHolds(actions[..|actions| - 1]);
      var s, a := Run(actions[..|actions| - 1]).value, actions[|actions| - 1];
      LogKept(s, a);
      forall c | c in Do(s, a).conns
        ensures InStep(Do(s, a), Do(s, a).conns[c])
      {
        ConnKept(s, a, c);
      }
    }
  }

  /** Every interleaving of emitters, attachers and lagging receivers, the lock held across `emit`: what a
      connection has delivered is a gap-free, duplicate-free prefix of the log (with the event being
      appended); and an attached connection with nothing left to replay or receive has delivered it all. */
  lemma DeliveredIsPrefixOfLog(actions: seq<Action>, c: ConnId)
    requires Run(actions).Some? && Locked(actions) && c in Run(actions).value.conns
    ensures var s := Run(actions).value; var k := s.conns[c];
      && k.delivered <= s.sent
      && (s.inFlight == map[] ==> s.sent == s.log && k.delivered <= s.log)
      && (s.inFlight == map[] && k.attached && k.replay == [] && k.pos == |s.sent| ==> k.delivered == s.log)
  {
    InvHolds(actions);
    PrefixInStep(Run(actions).value, c);
  }

  lemma PrefixInStep(s: State, c: ConnId)
    requires Inv(s) && c in s.conns
    ensures var k := s.conns[c];
      && k.delivered <= s.sent
      && (s.inFlight == map[] ==> s.sent == s.log && k.delivered <= s.log)
      && (s.inFlight == map[] && k.attached && k.replay == [] && k.pos == |s.sent| ==> k.delivered == s.log)
  {
  }

  // ---- the two steps as written, the broadcast outside the lock ----

  /** The events broadcast and not yet appended. */
  ghost function Flying(m: map<Emitter, Flight>): multiset<Event>
    decreases |m|
  {
    if m == map[] then multiset{}
    else
      var w :| w in m;
      SmallerWithout(m, w);
      multiset{m[w].event} + Flying(m - {w})
  }

  lemma SmallerWithout(m: map<Emitter, Flight>, w: Emitter)
    requires w in m
    ensures |m - {w}| < |m|
  {
    assert (m - {w}).Keys == m.Keys - {w};
  }

  lemma FlyingPick(m: map<Emitter, Flight>) returns (v: Emitter)
    requires m != map[]
    ensures v in m && Flying(m) == multiset{m[v].event} + Flying(m - {v})
  {
    v :| v in m && Flying(m) == multiset{m[v].event} + Flying(m - {v});
  }

  lemma {:induction false} FlyingWithout(m: map<Emitter, Flight>, w: Emitter)
    requires w in m
    ensures Flying(m) == multiset{m[w].event} + Flying(m - {w})
    decreases |m|
  {
    var v := FlyingPick(m);
    if v != w {
      hide Flying;
      MinusTwice(m, v, w);
      SmallerWithout(m, v);
      SmallerWithout(m, w);
      FlyingWithout(m - {v}, w);
      FlyingWithout(m - {w}, v);
    }
  }

  lemma MinusTwice(m: map<Emitter, Flight>, v: Emitter, w: Emitter)
    requires v in m && w in m && v != w
    ensures m - {v} - {w} == m - {w} - {v}
    ensures w in m - {v} && (m - {v})[w] == m[w] && v in m - {w} && (m - {w})[v] == m[v]
  {
  }

  ghost predicate Accounted(s: State) {
    multiset(s.sent) == multiset(s.log) + Flying(s.inFlight)
  }

  lemma AccountedKept(s: State, a: Action)
    requires Accounted(s) && Enabled(s, a)
    ensures Accounted(Do(s, a))
  {
    hide Flying;
    if a.Broadcast? {
      var m := s.inFlight[a.emitter := Flight(a.event, |s.sent|)];
      FlyingWithout(m, a.emitter);
      assert m - {a.emitter} == s.inFlight;
    } else if a.Append? {
      FlyingWithout(s.inFlight, a.emitter);
    }
  }

  /** In every run each event broadcast is in the log or in flight, once. */
  lemma {:induction false} AllAccounted(actions: seq<Action>)
    requires Run(actions).Some?
    ensures Accounted(Run(actions).value)
  {
    if actions != [] {
      AllAccounted(actions[..|actions| - 1]);
      AccountedKept(Run(actions[..|actions| - 1]).value, actions[|actions| - 1]);
    }
  }

  /**
   * What a connection that attached in state `m` has been given by state `s`: the log of then, and the broadcast since.
   */
  ghost predicate Given(m: State, s: State, k: Conn) {
    && m.sent <= s.sent && |m.sent| <= k.pos <= |s.sent|
    && k.delivered + k.replay == m.log + s.sent[|m.sent|..k.pos]
  }

  lemma GivenKept(m: State, s: State, a: Action, c: ConnId)
    requires c in s.conns && Given(m, s, s.conns[c]) && Enabled(s, a)
    ensures c in Do(s, a).conns && Given(m, Do(s, a), Do(s, a).conns[c])
  {
    var k, k' := s.conns[c], Do(s, a).conns[c];
    if a.Replay? && a.conn == c {
      assert k.delivered + k.replay == (k.delivered + [k.replay[0]]) + k.replay[1..];
    } else if a.Receive? && a.conn == c && k'.attached {
      assert k.delivered + [] == k.delivered;
      assert s.sent[|m.sent|..k.pos + 1] == s.sent[|m.sent|..k.pos] + [s.sent[k.pos]];
    }
  }

  /**
   * In every run of `emit` as written: a connection is given the log as it was when it attached and then the
   * broadcast from there on, without gap or duplicate. Lagging takes nothing out; it only ends the connection.
   */
  lemma {:induction false} GivenLogThenBroadcast(before: seq<Action>, c: ConnId, after: seq<Action>)
    requires Run(before + [Attach(c)] + after).Some?
    ensures Run(before).Some?
    ensures var s := Run(before + [Attach(c)] + after).value;
      c in s.conns && Given(Run(before).value, s, s.conns[c])
  {
    var all := before + [Attach(c)] + after;
    if after == [] {
      assert all == before + [Attach(c)] && all[..|all| - 1] == before;
      var m := Run(before).value;
      assert [] + m.log == m.log + m.sent[|m.sent|..|m.sent|];
    } else {
      assert all[..|all| - 1] == before + [Attach(c)] + after[..|after| - 1];
      GivenLogThenBroadcast(before, c, after[..|after| - 1]);
      GivenKept(Run(before).value, Run(all[..|all| - 1]).value, after[|after| - 1], c);
    }
  }

  /** Nothing is left to append, to replay or to receive. */
  ghost predicate Quiescent(s: State, c: ConnId) {
    s.inFlight == map[] && c in s.conns && s.conns[c].replay == [] && s.conns[c].pos == |s.sent|
  }

  /**
   * In every run, once all is quiet: a connection lacks exactly the events that were in flight when it attached.
   * So it has delivered the events of the log, each once, exactly when nothing was in flight then.
   */
  lemma DeliversAllIff(before: seq<Action>, c: ConnId, after: seq<Action>)
    requires Run(before + [Attach(c)] + after).Some? && Quiescent(Run(before + [Attach(c)] + after).value, c)
    ensures Run(before).Some?
    ensures var m, s := Run(before).value, Run(before + [Attach(c)] + after).value;
      && multiset(s.conns[c].delivered) + Flying(m.inFlight) == multiset(s.log)
      && (multiset(s.conns[c].delivered) == multiset(s.log) <==> m.inFlight == map[])
  {
    GivenLogThenBroadcast(before, c, after);
    AllAccounted(before);
    AllAccounted(before + [Attach(c)] + after);
    hide Run;
    var m, s := Run(before).value, Run(before + [Attach(c)] + after).value;
    LacksWhatFlew(m, s, s.conns[c]);
    if m.inFlight != map[] {
      var w :| w in m.inFlight;
      FlyingWithout(m.inFlight, w);
      assert Flying(m.inFlight)[m.inFlight[w].event] > 0;
    }
  }

  lemma LacksWhatFlew(m: State, s: State, k: Conn)
    requires Accounted(m) && Accounted(s) && s.inFlight == map[] && Given(m, s, k) && k.replay == []
    requires k.pos == |s.sent|
    ensures multiset(k.delivered) + Flying(m.inFlight) == multiset(s.log)
  {
    var tail := s.sent[|m.sent|..];
    assert s.sent == m.sent + tail;
    assert k.delivered == m.log + tail by { assert k.delivered + [] == k.delivered && s.sent[|m.sent|..k.pos] == tail; }
    assert Flying(s.inFlight) == multiset{};
    assert multiset(s.sent) == multiset(s.log);
    assert multiset(s.sent) == multiset(m.sent) + multiset(tail);
    assert multiset(k.delivered) == multiset(m.log) + multiset(tail);
  }

  // ---- the order of the log ----

  /** An append that comes before that of an event broadcast earlier. */
  ghost predicate Overtakes(s: State, a: Action) {
    a.Append? && a.emitter in s.inFlight && exists w :: w in s.inFlight && s.inFlight[w].at < s.inFlight[a.emitter].at
  }

  /** No append among the later steps of a run overtakes. */
  ghost predicate Orderly(before: seq<Action>, after: seq<Action>) {
    after != [] ==>
      var init := after[..|after| - 1];
      Orderly(before, init)
      && (Run(before + init).Some? ==> !Overtakes(Run(before + init).value, after[|after| - 1]))
  }

  ghost predicate FliesAt(s: State, i: nat) {
    exists w :: w in s.inFlight && s.inFlight[w].at == i
  }

  /** Each flight is where its broadcast is, and no two are the same. */
  ghost predicate FlightsPlaced(s: State) {
    && |s.log| <= |s.sent|
    && (forall w :: w in s.inFlight ==> s.inFlight[w].at < |s.sent| && s.inFlight[w].event == s.sent[s.inFlight[w].at])
    && (forall v, w :: v in s.inFlight && w in s.inFlight && s.inFlight[v].at == s.inFlight[w].at ==> v == w)
  }

  /** From number `n0` on, the log is the broadcast. */
  ghost predicate Follows(s: State, n0: nat) {
    n0 <= |s.log| <= |s.sent| && forall i :: n0 <= i < |s.log| ==> s.log[i] == s.sent[i]
  }

  /** Moreover everything broadcast after that is in flight. */
  ghost predicate LogLeads(s: State, n0: nat) {
    && FlightsPlaced(s) && Follows(s, n0)
    && (forall w :: w in s.inFlight ==> |s.log| <= s.inFlight[w].at)
    && (forall i :: |s.log| <= i < |s.sent| ==> FliesAt(s, i))
  }

  lemma FliesStill(s: State, s': State, i: nat, but: Emitter)
    requires FliesAt(s, i)
    requires (forall w :: w in s.inFlight && w != but ==> w in s'.inFlight && s'.inFlight[w] == s.inFlight[w])
    requires but in s.inFlight ==> s.inFlight[but].at != i
    ensures FliesAt(s', i)
  {
  }

  lemma LogLeadsAppend(s: State, w: Emitter, n0: nat)
    requires LogLeads(s, n0) && Enabled(s, Append(w)) && !Overtakes(s, Append(w))
    ensures LogLeads(Do(s, Append(w)), n0)
  {
    var s', n := Do(s, Append(w)), |s.log|;
    assert n < |s.sent|;
    assert FliesAt(s, n);
    var v :| v in s.inFlight && s.inFlight[v].at == n;
    assert v == w;
    forall i | n + 1 <= i < |s.sent| ensures FliesAt(s', i) { FliesStill(s, s', i, w); }
    hide FliesAt;
  }

  lemma LogLeadsBroadcast(s: State, w: Emitter, e: Event, n0: nat)
    requires LogLeads(s, n0) && Enabled(s, Broadcast(w, e))
    ensures LogLeads(Do(s, Broadcast(w, e)), n0)
  {
    var s' := Do(s, Broadcast(w, e));
    assert s'.inFlight[w].at == |s.sent|;
    assert FliesAt(s', |s.sent|);
    forall i | |s.log| <= i < |s.sent| ensures FliesAt(s', i) { FliesStill(s, s', i, w); }
    hide FliesAt;
  }

  lemma LogLeadsKept(s: State, a: Action, n0: nat)
    requires LogLeads(s, n0) && Enabled(s, a) && !Overtakes(s, a)
    ensures LogLeads(Do(s, a), n0)
  {
    if a.Broadcast? {
      LogLeadsBroadcast(s, a.emitter, a.event, n0);
    } else if a.Append? {
      LogLeadsAppend(s, a.emitter, n0);
    } else {
      hide Overtakes;
      assert forall i :: FliesAt(s, i) ==> FliesAt(Do(s, a), i);
    }
  }

  lemma RunLast(before: seq<Action>, after: seq<Action>)
    requires after != [] && Run(before + after).Some?
    ensures var init, a := after[..|after| - 1], after[|after| - 1];
      Run(before + init).Some? && Enabled(Run(before + init).value, a)
      && Run(before + after).value == Do(Run(before + init).value, a)
  {
    var all := before + after;
    assert all[..|all| - 1] == before + after[..|after| - 1];
  }

  lemma {:induction false} RunGrows(before: seq<Action>, after: seq<Action>)
    requires Run(before + after).Some?
    ensures Run(before).Some?
    ensures Run(before).value.log <= Run(before + after).value.log
    ensures Run(before).value.sent <= Run(before + after).value.sent
  {
    if after == [] {
      assert before + after == before;
    } else {
      RunLast(before, after);
      RunGrows(before, after[..|after| - 1]);
    }
  }

  lemma {:induction false} OrderlyLogLeads(before: seq<Action>, after: seq<Action>, n0: nat)
    requires Run(before + after).Some? && Orderly(before, after)
    requires Run(before).Some? && LogLeads(Run(before).value, n0)
    ensures LogLeads(Run(before + after).value, n0)
  {
    if after == [] {
      assert before + after == before;
    } else {
      RunLast(before, after);
      OrderlyLogLeads(before, after[..|after| - 1], n0);
      hide LogLeads, Run;
      LogLeadsKept(Run(before + after[..|after| - 1]).value, after[|after| - 1], n0);
    }
  }

  ghost predicate DistinctEvents(events: seq<Event>) {
    forall i, j :: 0 <= i < j < |events| ==> events[i] != events[j]
  }

  /** An append that overtakes puts into the log what the broadcast has later. */
  lemma OvertakingShows(s: State, a: Action, n0: nat)
    requires LogLeads(s, n0) && Enabled(s, a) && Overtakes(s, a) && DistinctEvents(s.sent)
    ensures !Follows(Do(s, a), n0)
  {
    var n, at := |s.log|, s.inFlight[a.emitter].at;
    assert n < at;
    assert Do(s, a).log[n] == s.sent[at] != s.sent[n];
  }

  lemma LogIsShorter(actions: seq<Action>)
    requires Run(actions).Some?
    ensures |Run(actions).value.log| <= |Run(actions).value.sent|
    ensures Run(actions).value.inFlight == map[] ==> |Run(actions).value.log| == |Run(actions).value.sent|
  {
    AllAccounted(actions);
    var s := Run(actions).value;
    assert |multiset(s.sent)| == |multiset(s.log)| + |Flying(s.inFlight)|;
  }

  lemma FollowedBefore(s: State, s': State, n0: nat)
    requires Follows(s', n0) && s.log <= s'.log && s.sent <= s'.sent && n0 <= |s.log| <= |s.sent|
    ensures Follows(s, n0)
  {
    forall i | n0 <= i < |s.log| ensures s.log[i] == s.sent[i] {
      assert s'.log[i] == s'.sent[i];
    }
  }

  lemma {:induction false} OrderlyIfFollowing(before: seq<Action>, after: seq<Action>, n0: nat)
    requires Run(before + after).Some? && DistinctEvents(Run(before + after).value.sent)
    requires Run(before).Some? && LogLeads(Run(before).value, n0) && Follows(Run(before + after).value, n0)
    ensures Orderly(before, after)
  {
    if after != [] {
      var init, a := after[..|after| - 1], after[|after| - 1];
      RunLast(before, after);
      RunGrows(before, init);
      LogIsShorter(before + init);
      hide LogLeads, Overtakes, Run;
      var s, s' := Run(before + init).value, Run(before + after).value;
      assert n0 <= |Run(before).value.log| by { LogLeadsBound(Run(before).value, n0); }
      FollowedBefore(s, s', n0);
      assert DistinctEvents(s.sent) by { assert s.sent <= s'.sent; }
      OrderlyIfFollowing(before, init, n0);
      OrderlyLogLeads(before, init, n0);
      if Overtakes(s, a) { OvertakingShows(s, a, n0); }
    }
  }

  lemma LogLeadsBound(s: State, n0: nat)
    requires LogLeads(s, n0)
    ensures n0 <= |s.log| && Follows(s, n0)
  {
  }

  /**
   * In every run: when no append overtakes, the log is in the order of the broadcast; and with distinct events only
   * then.
   */
  lemma LogInOrderIff(actions: seq<Action>)
    requires Run(actions).Some?
    ensures var s := Run(actions).value;
      && (Orderly([], actions) ==> s.log <= s.sent)
      && (DistinctEvents(s.sent) ==> (s.log <= s.sent <==> Orderly([], actions)))
  {
    assert [] + actions == actions;
    assert Run([]) == Some(START) && LogLeads(START, 0);
    LogIsShorter(actions);
    hide Orderly, Run, LogLeads;
    var s := Run(actions).value;
    assert s.log <= s.sent <==> Follows(s, 0);
    if Orderly([], actions) {
      OrderlyLogLeads([], actions, 0);
      LogLeadsBound(s, 0);
    }
    if DistinctEvents(s.sent) && Follows(s, 0) { OrderlyIfFollowing([], actions, 0); }
  }

  lemma AttachRun(before: seq<Action>, c: ConnId, after: seq<Action>)
    requires Run(before + [Attach(c)] + after).Some?
    ensures Run(before).Some? && Run(before + [Attach(c)]).Some?
    ensures var m, n := Run(before).value, Run(before + [Attach(c)]).value;
      n.log == m.log && n.sent == m.sent && n.inFlight == m.inFlight
  {
    RunGrows(before + [Attach(c)], after);
    RunLast(before, [Attach(c)]);
    assert [Attach(c)][..0] == [] && before + [] == before;
  }

  /** What has been delivered is the log exactly when the log follows the broadcast from the attach on. */
  lemma DeliveredIff(m: State, s: State, k: Conn)
    requires Given(m, s, k) && k.replay == [] && k.pos == |s.sent| && |m.log| == |m.sent| && m.log <= s.log
    requires |s.log| == |s.sent|
    ensures k.delivered == s.log <==> Follows(s, |m.log|)
  {
    var n := |m.log|;
    assert k.delivered + [] == k.delivered && s.sent[n..k.pos] == s.sent[n..];
    assert s.log == m.log + s.log[n..];
    if k.delivered == s.log {
      assert s.log[n..] == s.sent[n..];
      forall i | n <= i < |s.log| ensures s.log[i] == s.sent[i] {
        assert s.log[n..][i - n] == s.sent[n..][i - n];
      }
    }
    if Follows(s, n) { assert s.log[n..] == s.sent[n..]; }
  }

  /**
   * In every run with distinct events, once all is quiet: a connection has delivered the log as it is exactly when
   * nothing was in flight when it attached and no append after that overtook. What came before does not matter.
   */
  lemma DeliversTheLogIff(before: seq<Action>, c: ConnId, after: seq<Action>)
    requires Run(before + [Attach(c)] + after).Some? && Quiescent(Run(before + [Attach(c)] + after).value, c)
    ensures Run(before).Some?
    ensures var m, s := Run(before).value, Run(before + [Attach(c)] + after).value;
      && (m.inFlight == map[] && Orderly(before + [Attach(c)], after) ==> s.conns[c].delivered == s.log)
      && (DistinctEvents(s.sent) ==>
            (s.conns[c].delivered == s.log <==> m.inFlight == map[] && Orderly(before + [Attach(c)], after)))
  {
    var at := before + [Attach(c)];
    AttachRun(before, c, after);
    GivenLogThenBroadcast(before, c, after);
    DeliversAllIff(before, c, after);
    RunGrows(at, after);
    LogIsShorter(before);
    LogIsShorter(at + after);
    hide Run, Orderly;
    var m, s := Run(before).value, Run(at + after).value;
    if m.inFlight == map[] {
      hide Given, Follows;
      DeliveredIff(m, s, s.conns[c]);
      LeadsFromQuiet(Run(at).value);
      if Orderly(at, after) {
        OrderlyLogLeads(at, after, |m.log|);
        LogLeadsBound(s, |m.log|);
      }
      if DistinctEvents(s.sent) && Follows(s, |m.log|) { OrderlyIfFollowing(at, after, |m.log|); }
    }
  }

  lemma LeadsFromQuiet(s: State)
    requires s.inFlight == map[] && |s.log| == |s.sent|
    ensures LogLeads(s, |s.log|)
  {
  }

  lemma RunStep(actions: seq<Action>, a: Action)
    requires Run(actions).Some? && Enabled(Run(actions).value, a)
    ensures Run(actions + [a]) == Some(Do(Run(actions).value, a))
  {
  }

  /** The losing interleaving: broadcast, attach, append. Nothing is left to come, and the client never
      sees the event. */
  lemma LostEvent(e: Event)
    ensures var end := Run([Broadcast(0, e), Attach(0), Append(0)]);
      && end.Some? && end.value.log == [e] && end.value.inFlight == map[] && 0 in end.value.conns
      && end.value.conns[0] == Conn([], [], |end.value.sent|, true)
  {
    var p, q := [Broadcast(0, e)], [Broadcast(0, e), Attach(0)];
    RunStep([], Broadcast(0, e));
    assert [] + p == p;
    RunStep(p, Attach(0));
    assert p + [Attach(0)] == q;
    RunStep(q, Append(0));
    assert q + [Append(0)] == [Broadcast(0, e), Attach(0), Append(0)];
  }

  /** Two emitters may append in the other order than they broadcast: the order seen live is then not
      the order a later replay shows. */
  lemma ReorderedEvents(a: Event, b: Event)
    ensures var end := Run([Broadcast(0, a), Broadcast(1, b), Append(1), Append(0)]);
      end.Some? && end.value.sent == [a, b] && end.value.log == [b, a]
  {
    var p, q, r := [Broadcast(0, a)], [Broadcast(0, a), Broadcast(1, b)], [Broadcast(0, a), Broadcast(1, b), Append(1)];
    RunStep([], Broadcast(0, a));
    assert [] + p == p;
    RunStep(p, Broadcast(1, b));
    assert p + [Broadcast(1, b)] == q;
    RunStep(q, Append(1));
    assert q + [Append(1)] == r;
    RunStep(r, Append(0));
    assert r + [Append(0)] == [Broadcast(0, a), Broadcast(1, b), Append(1), Append(0)];
  }

  /** An emitter that nobody interrupts, and an attacher between emitters, observe the lock. */
  lemma EmitUnderLock(actions: seq<Action>, w: Emitter, e: Event, c: ConnId)
    requires Run(actions).Some? && Locked(actions) && Run(actions).value.inFlight == map[]
    ensures var s := Run(actions).value;
      && Locked(actions + [Broadcast(w, e)] + [Append(w)])
      && Run(actions + [Broadcast(w, e)] + [Append(w)]) == Some(s.(log := s.log + [e], sent := s.sent + [e]))
      && Locked(actions + [Attach(c)])
  {
    var s := Run(actions).value;
    var one := actions + [Broadcast(w, e)];
    var two := one + [Append(w)];
    assert one[..|one| - 1] == actions && two[..|two| - 1] == one;
    assert (actions + [Attach(c)])[..|actions|] == actions;
    assert Run(one) == Some(Do(s, Broadcast(w, e)));
    assert s.inFlight[w := Flight(e, |s.sent|)] - {w} == s.inFlight;
  }

  // ---- who is still attached ----

  /** At step `i` the connection leaves, or finds itself too far behind the broadcast. */
  predicate DetachesAt(actions: seq<Action>, i: nat, c: ConnId)
    requires i < |actions|
  {
    || actions[i] == Leave(c)
    || (actions[i] == Receive(c) && Run(actions[..i]).Some?
        && var s := Run(actions[..i]).value; c in s.conns && |s.sent| - s.conns[c].pos > 4096)
  }

  lemma StepDetaches(s: State, a: Action, c: ConnId)
    requires Enabled(s, a) && c in Do(s, a).conns
    ensures !Do(s, a).conns[c].attached <==>
      || a == Leave(c)
      || (a == Receive(c) && |s.sent| - s.conns[c].pos > 4096)
      || (c in s.conns && !s.conns[c].attached)
    ensures !Do(s, a).conns[c].attached && c in s.conns ==>
      Do(s, a).conns[c].delivered == s.conns[c].delivered && Do(s, a).conns[c].replay == s.conns[c].replay
  {
  }

  /**
   * In every run: a connection is detached exactly when it has left, or has once asked for the next event when more
   * than 4096 were waiting for it.
   */
  lemma {:induction false} DetachedIff(actions: seq<Action>, c: ConnId)
    requires Run(actions).Some? && c in Run(actions).value.conns
    ensures !Run(actions).value.conns[c].attached <==> exists i :: 0 <= i < |actions| && DetachesAt(actions, i, c)
  {
    if actions != [] {
      var init, last := actions[..|actions| - 1], actions[|actions| - 1];
      var s := Run(init).value;
      StepDetaches(s, last, c);
      DetachesSnoc(init, last, c);
      assert actions == init + [last];
      if c in s.conns {
        DetachedIff(init, c);
      } else {
        NotThereYet(init, c);
      }
      hide Do, DetachesAt;
    }
  }

  lemma DetachesSnoc(init: seq<Action>, last: Action, c: ConnId)
    ensures (exists i :: 0 <= i < |init + [last]| && DetachesAt(init + [last], i, c)) <==>
      || (exists i :: 0 <= i < |init| && DetachesAt(init, i, c))
      || DetachesAt(init + [last], |init|, c)
  {
    var all := init + [last];
    forall i | 0 <= i < |init| ensures DetachesAt(all, i, c) <==> DetachesAt(init, i, c) {
      assert all[..i] == init[..i];
    }
    hide DetachesAt;
    if i :| 0 <= i < |init| && DetachesAt(init, i, c) { assert DetachesAt(all, i, c); }
  }

  lemma {:induction false} NotThereYet(actions: seq<Action>, c: ConnId)
    requires Run(actions).Some? && c !in Run(actions).value.conns
    ensures forall i :: 0 <= i < |actions| ==> !DetachesAt(actions, i, c)
  {
    if actions != [] {
      var init, last := actions[..|actions| - 1], actions[|actions| - 1];
      assert actions == init + [last];
      NotThereYet(init, c);
      DetachesSnoc(init, last, c);
      assert actions[..|init|] == init;
    }
  }
}
