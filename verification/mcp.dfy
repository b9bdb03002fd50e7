/**
 * Requests over the stdio transport of the MCP client. Callers, the reader task and the two ends of the
 * child process act in any order; each step below is what one of them does without giving way.
 */
module Mcp {
  import opened Options

  datatype Reply = Result(value: string) | RpcError(message: string)

  /** A line from the child, after JSON decoding. A message may hold an id, an error with or without text, a result. */
  datatype Line = Blank | NotJson | Message(id: Option<nat>, error: Option<Option<string>>, result: Option<string>)

  /** The reader takes a line for a reply when it has an id. */
  predicate Numbered(line: Line) {
    line.Message? && line.id.Some?
  }

  /** The reply that the reader makes of such a line. */
  function Content(line: Line): Reply
    requires Numbered(line)
  {
    if line.error.Some? then RpcError(if line.error.value.Some? then line.error.value.value else "unknown MCP error")
    else Result(if line.result.Some? then line.result.value else "null")
  }

  datatype Outcome = Answer(id: nat, reply: Reply) | ConnectionClosed | TimedOut | WriterClosed | ChannelClosed

  datatype Phase = HasId | Registered | Waiting | Expired | Abandoned | Returned(outcome: Outcome)

  /**
   * `since` counts the lines read before the request was registered, and `heard` tells whether the reader was still
   * there then; `slot` is the one-shot channel.
   */
  datatype Request = Request(phase: Phase, since: nat, heard: bool, slot: Option<Outcome>)

  /** `hand` holds the senders that the reader has taken out of `pending` and not used yet. */
  datatype Client = Client(
    nextId: nat, pending: set<nat>, requests: map<nat, Request>, hand: map<nat, Outcome>,
    writerOpen: bool, readerOpen: bool, log: seq<Line>)

  const NO_REQUESTS: map<nat, Request> := map[]
  const NO_HAND: map<nat, Outcome> := map[]

  const CONNECTED := Client(1, {}, NO_REQUESTS, NO_HAND, true, true, [])

  predicate In(c: Client, id: nat, phase: Phase) {
    id in c.requests && c.requests[id].phase == phase
  }

  function SetPhase(c: Client, id: nat, phase: Phase): Client
    requires id in c.requests
  {
    c.(requests := c.requests[id := c.requests[id].(phase := phase)])
  }

  // ---- the steps; one that cannot be taken changes nothing ----

  function TakeId(c: Client): Client {
    c.(nextId := c.nextId + 1, requests := c.requests[c.nextId := Request(HasId, 0, false, None)])
  }

  function Register(c: Client, id: nat): Client {
    if !In(c, id, HasId) then c
    else c.(pending := c.pending + {id}, requests := c.requests[id := Request(Registered, |c.log|, c.readerOpen, None)])
  }

  function Queue(c: Client, id: nat): Client {
    if !In(c, id, Registered) then c
    else SetPhase(c, id, if c.writerOpen then Waiting else Returned(WriterClosed))
  }

  /** The reader reads a line, and takes the sender of the request that it names, if it is there. */
  function ReadLine(c: Client, line: Line): Client {
    if !c.readerOpen || c.hand != NO_HAND then c
    else if Numbered(line) && line.id.value in c.pending then
      c.(log := c.log + [line], pending := c.pending - {line.id.value},
         hand := NO_HAND[line.id.value := Answer(line.id.value, Content(line))])
    else c.(log := c.log + [line])
  }

  /** End of the child's output: the reader takes every sender. */
  function EndOfOutput(c: Client): Client {
    if !c.readerOpen || c.hand != NO_HAND then c
    else c.(readerOpen := false, hand := map id | id in c.pending :: ConnectionClosed, pending := {})
  }

  predicate Listening(r: Request) {
    r.phase.Registered? || r.phase.Waiting?
  }

  /** The reader uses a sender; without a receiver nothing happens. */
  function Deliver(c: Client, id: nat): Client {
    if id !in c.hand then c
    else if id in c.requests && Listening(c.requests[id]) then
      c.(hand := c.hand - {id}, requests := c.requests[id := c.requests[id].(slot := Some(c.hand[id]))])
    else c.(hand := c.hand - {id})
  }

  function Receive(c: Client, id: nat): Client {
    if In(c, id, Waiting) && c.requests[id].slot.Some? then SetPhase(c, id, Returned(c.requests[id].slot.value)) else c
  }

  /** The receiver finds its channel empty and every sender gone. */
  function LoseChannel(c: Client, id: nat): Client {
    if In(c, id, Waiting) && c.requests[id].slot.None? && id !in c.pending && id !in c.hand
    then SetPhase(c, id, Returned(ChannelClosed))
    else c
  }

  function Expire(c: Client, id: nat): Client {
    if In(c, id, Waiting) then SetPhase(c, id, Expired) else c
  }

  function GiveUp(c: Client, id: nat): Client {
    if In(c, id, Expired) then SetPhase(c, id, Returned(TimedOut)).(pending := c.pending - {id}) else c
  }

  /** The caller drops the future at its only await. */
  function Abandon(c: Client, id: nat): Client {
    if In(c, id, Waiting) then SetPhase(c, id, Abandoned) else c
  }

  datatype Action =
    | IdTaken | Registration(id: nat) | LineQueued(id: nat) | LineRead(line: Line) | OutputEnded
    | Delivery(id: nat) | Reception(id: nat) | ChannelLost(id: nat) | Expiry(id: nat) | GivenUp(id: nat)
    | Abandonment(id: nat) | WriterEnded

  function Apply(c: Client, a: Action): Client {
    match a
    case IdTaken => TakeId(c)
    case Registration(id) => Register(c, id)
    case LineQueued(id) => Queue(c, id)
    case LineRead(line) => ReadLine(c, line)
    case OutputEnded => EndOfOutput(c)
    case Delivery(id) => Deliver(c, id)
    case Reception(id) => Receive(c, id)
    case ChannelLost(id) => LoseChannel(c, id)
    case Expiry(id) => Expire(c, id)
    case GivenUp(id) => GiveUp(c, id)
    case Abandonment(id) => Abandon(c, id)
    case WriterEnded => c.(writerOpen := false)
  }

  function Run(c: Client, actions: seq<Action>): Client
    decreases |actions|
  {
    if actions == [] then c else Run(Apply(c, actions[0]), actions[1..])
  }

  // ---- what every reachable state keeps ----

  predicate Names(line: Line, id: nat) {
    Numbered(line) && line.id.value == id
  }

  /** The first line that names `id` among those read from `since` on. */
  function FirstNaming(log: seq<Line>, since: nat, id: nat): (r: Option<Line>)
    ensures r.Some? ==> Names(r.value, id)
  {
    if |log| <= since then None
    else
      var line := log[|log| - 1];
      match FirstNaming(log[..|log| - 1], since, id)
      case Some(l) => Some(l)
      case None => if Names(line, id) then Some(line) else None
  }

  /** What a request gets from the lines read since it was registered. */
  function FirstReply(log: seq<Line>, since: nat, id: nat): Option<Reply> {
    match FirstNaming(log, since, id)
    case Some(line) => Some(Content(line))
    case None => None
  }

  /** Why a request may get an outcome through its channel. */
  ghost predicate Justified(c: Client, id: nat, since: nat, o: Outcome) {
    || (o.Answer? && o.id == id && FirstReply(c.log, since, id) == Some(o.reply))
    || (o.ConnectionClosed? && !c.readerOpen && FirstReply(c.log, since, id) == None)
  }

  ghost predicate PhaseOk(c: Client, id: nat, r: Request) {
    match r.phase
    case HasId => id !in c.pending && id !in c.hand && r.slot.None?
    case Registered => if r.slot.Some? then id !in c.pending && id !in c.hand else id in c.pending || id in c.hand
    case Waiting => if r.slot.Some? then id !in c.pending && id !in c.hand else id in c.pending || id in c.hand
    case Expired => true
    case Abandoned => true
    case Returned(o) =>
      if o.WriterClosed? then !c.writerOpen
      else if o.TimedOut? then id !in c.pending
      else id !in c.pending && id !in c.hand && Justified(c, id, r.since, o)
  }

  ghost predicate RequestOk(c: Client, id: nat, r: Request) {
    && PhaseOk(c, id, r)
    && r.since <= |c.log|
    && (id in c.pending ==> id !in c.hand && FirstReply(c.log, r.since, id) == None)
    && (id in c.hand ==> Justified(c, id, r.since, c.hand[id]))
    && (r.slot.Some? ==> Justified(c, id, r.since, r.slot.value))
    && PendingOk(c, id, r)
  }

  /** An entry goes when a line names it, when the output ends, or when its request times out. */
  ghost predicate PendingOk(c: Client, id: nat, r: Request) {
    && (r.phase != HasId && c.readerOpen ==> r.heard)
    && (r.phase != HasId && r.phase != Returned(TimedOut) ==>
          (id in c.pending <==> FirstReply(c.log, r.since, id) == None && (c.readerOpen || !r.heard)))
  }

  ghost predicate Inv(c: Client) {
    && c.nextId >= 1
    && (forall id :: id in c.requests <==> 1 <= id < c.nextId)
    && (forall id :: id in c.pending || id in c.hand ==> id in c.requests)
    && (forall id :: id in c.requests ==> RequestOk(c, id, c.requests[id]))
  }

  lemma FirstNamingSnoc(log: seq<Line>, line: Line, since: nat, id: nat)
    requires since <= |log|
    ensures FirstReply(log + [line], since, id) == (
      match FirstReply(log, since, id)
      case Some(r) => Some(r)
      case None => if Names(line, id) then Some(Content(line)) else None)
  {
    assert (log + [line])[..|log|] == log;
  }

  lemma FirstReplyFromEnd(log: seq<Line>, id: nat)
    ensures FirstReply(log, |log|, id) == None
  {
  }

  /** A step that concerns the request `id` alone. */
  ghost predicate OnlyAt(c: Client, d: Client, id: nat) {
    && d.nextId == c.nextId && d.log == c.log && d.readerOpen == c.readerOpen && d.writerOpen == c.writerOpen
    && id in c.requests && id in d.requests
    && forall other :: other != id ==>
         && (other in d.requests <==> other in c.requests) && (other in d.pending <==> other in c.pending)
         && (other in d.hand <==> other in c.hand)
         && (other in c.requests ==> d.requests[other] == c.requests[other])
         && (other in c.hand ==> d.hand[other] == c.hand[other])
  }

  lemma OnlyAtKeepsInv(c: Client, d: Client, id: nat)
    requires Inv(c) && OnlyAt(c, d, id) && RequestOk(d, id, d.requests[id])
    ensures Inv(d)
  {
    hide FirstReply;
    forall other | other in d.requests ensures RequestOk(d, other, d.requests[other]) {
      if other != id { assert RequestOk(c, other, c.requests[other]); }
    }
  }

  lemma NewIdKeepsInv(c: Client)
    requires Inv(c)
    ensures Inv(TakeId(c))
  {
    hide FirstReply;
    var d := TakeId(c);
    forall id | id in d.requests ensures RequestOk(d, id, d.requests[id]) {
      if id in c.requests { assert RequestOk(c, id, c.requests[id]); }
    }
  }

  lemma WriterEndKeepsInv(c: Client)
    requires Inv(c)
    ensures Inv(c.(writerOpen := false))
  {
    hide FirstReply;
    var d := c.(writerOpen := false);
    forall id | id in d.requests ensures RequestOk(d, id, d.requests[id]) { assert RequestOk(c, id, c.requests[id]); }
  }

  lemma RegisterKeepsInv(c: Client, id: nat)
    requires Inv(c)
    ensures Inv(Register(c, id))
  {
    hide FirstReply;
    var d := Register(c, id);
    if d != c {
      assert RequestOk(c, id, c.requests[id]);
      FirstReplyFromEnd(c.log, id);
      assert RequestOk(d, id, d.requests[id]);
      hide RequestOk, Inv;
      OnlyAtKeepsInv(c, d, id);
    }
  }

  lemma QueueKeepsInv(c: Client, id: nat)
    requires Inv(c)
    ensures Inv(Queue(c, id))
  {
    hide FirstReply;
    var d := Queue(c, id);
    if d != c {
      assert RequestOk(c, id, c.requests[id]);
      assert RequestOk(d, id, d.requests[id]);
      hide RequestOk, Inv;
      OnlyAtKeepsInv(c, d, id);
    }
  }

  lemma ExpireKeepsInv(c: Client, id: nat)
    requires Inv(c)
    ensures Inv(Expire(c, id))
  {
    hide FirstReply;
    var d := Expire(c, id);
    if d != c {
      assert RequestOk(c, id, c.requests[id]);
      assert RequestOk(d, id, d.requests[id]);
      hide RequestOk, Inv;
      OnlyAtKeepsInv(c, d, id);
    }
  }

  lemma GiveUpKeepsInv(c: Client, id: nat)
    requires Inv(c)
    ensures Inv(GiveUp(c, id))
  {
    hide FirstReply;
    var d := GiveUp(c, id);
    if d != c {
      assert RequestOk(c, id, c.requests[id]);
      assert RequestOk(d, id, d.requests[id]);
      hide RequestOk, Inv;
      OnlyAtKeepsInv(c, d, id);
    }
  }

  lemma AbandonKeepsInv(c: Client, id: nat)
    requires Inv(c)
    ensures Inv(Abandon(c, id))
  {
    hide FirstReply;
    var d := Abandon(c, id);
    if d != c {
      assert RequestOk(c, id, c.requests[id]);
      assert RequestOk(d, id, d.requests[id]);
      hide RequestOk, Inv;
      OnlyAtKeepsInv(c, d, id);
    }
  }

  lemma ReceiveKeepsInv(c: Client, id: nat)
    requires Inv(c)
    ensures Inv(Receive(c, id))
  {
    hide FirstReply;
    var d := Receive(c, id);
    if d != c {
      assert RequestOk(c, id, c.requests[id]);
      assert RequestOk(d, id, d.requests[id]);
      hide RequestOk, Inv;
      OnlyAtKeepsInv(c, d, id);
    }
  }

  /** A waiting receiver never finds every sender gone. */
  lemma ChannelsAreKept(c: Client, id: nat)
    requires Inv(c)
    ensures LoseChannel(c, id) == c
  {
    if id in c.requests { assert RequestOk(c, id, c.requests[id]); }
  }

  lemma DeliverIsOk(c: Client, id: nat)
    requires Inv(c) && id in c.hand
    ensures id in c.requests && OnlyAt(c, Deliver(c, id), id)
    ensures RequestOk(Deliver(c, id), id, Deliver(c, id).requests[id])
  {
    hide FirstReply, Justified;
    assert RequestOk(c, id, c.requests[id]);
    hide Inv;
    var d := Deliver(c, id);
    JustifiedStill(c, d, id, c.requests[id].since);
    hide OnlyAt;
    assert OnlyAt(c, d, id) by { DeliverIsLocal(c, id); }
  }

  lemma DeliverIsLocal(c: Client, id: nat)
    requires id in c.requests
    ensures OnlyAt(c, Deliver(c, id), id)
  {
  }

  lemma JustifiedStill(c: Client, d: Client, id: nat, since: nat)
    requires d.log == c.log && d.readerOpen == c.readerOpen
    ensures forall o :: Justified(c, id, since, o) ==> Justified(d, id, since, o)
  {
  }

  lemma DeliverKeepsInv(c: Client, id: nat)
    requires Inv(c)
    ensures Inv(Deliver(c, id))
  {
    hide RequestOk, OnlyAt, Inv;
    if id in c.hand {
      DeliverIsOk(c, id);
      OnlyAtKeepsInv(c, Deliver(c, id), id);
    }
  }

  lemma ReadKeepsInv(c: Client, line: Line)
    requires Inv(c)
    ensures Inv(ReadLine(c, line))
  {
    hide FirstReply;
    var d := ReadLine(c, line);
    forall id | id in d.requests ensures RequestOk(d, id, d.requests[id]) {
      assert RequestOk(c, id, c.requests[id]);
      FirstNamingSnoc(c.log, line, c.requests[id].since, id);
    }
  }

  lemma EndKeepsInv(c: Client)
    requires Inv(c)
    ensures Inv(EndOfOutput(c))
  {
    hide FirstReply;
    var d := EndOfOutput(c);
    forall id | id in d.requests ensures RequestOk(d, id, d.requests[id]) { assert RequestOk(c, id, c.requests[id]); }
  }

  lemma StepKeepsInv(c: Client, a: Action)
    requires Inv(c)
    ensures Inv(Apply(c, a))
  {
    hide Inv;
    hide TakeId, Register, Queue, ReadLine, EndOfOutput, Deliver, Receive, LoseChannel, Expire, GiveUp, Abandon;
    match a
    case IdTaken => NewIdKeepsInv(c);
    case Registration(id) => RegisterKeepsInv(c, id);
    case LineQueued(id) => QueueKeepsInv(c, id);
    case LineRead(line) => ReadKeepsInv(c, line);
    case OutputEnded => EndKeepsInv(c);
    case Delivery(id) => DeliverKeepsInv(c, id);
    case Reception(id) => ReceiveKeepsInv(c, id);
    case ChannelLost(id) => ChannelsAreKept(c, id);
    case Expiry(id) => ExpireKeepsInv(c, id);
    case GivenUp(id) => GiveUpKeepsInv(c, id);
    case Abandonment(id) => AbandonKeepsInv(c, id);
    case WriterEnded => WriterEndKeepsInv(c);
  }

  lemma {:induction false} InvAlways(c: Client, actions: seq<Action>)
    requires Inv(c)
    ensures Inv(Run(c, actions))
    decreases |actions|
  {
    hide Inv, Apply;
    if actions != [] {
      StepKeepsInv(c, actions[0]);
      InvAlways(Apply(c, actions[0]), actions[1..]);
    }
  }

  predicate HasReturned(c: Client, id: nat) {
    id in c.requests && c.requests[id].phase.Returned?
  }

  /** A request returns once: its outcome never changes afterwards. */
  lemma {:induction false} OneOutcome(c: Client, actions: seq<Action>, id: nat)
    requires Inv(c) && HasReturned(c, id)
    ensures var d := Run(c, actions); id in d.requests && d.requests[id].phase == c.requests[id].phase
    decreases |actions|
  {
    if actions != [] {
      var d := Apply(c, actions[0]);
      InvAlways(c, [actions[0]]);
      assert Run(c, [actions[0]]) == d by { assert [actions[0]][1..] == []; }
      hide Inv, RequestOk;
      ReturnedStays(c, actions[0], id);
      OneOutcome(d, actions[1..], id);
    }
  }

  lemma ReturnedStays(c: Client, a: Action, id: nat)
    requires HasReturned(c, id) && id != c.nextId
    ensures HasReturned(Apply(c, a), id) && Apply(c, a).requests[id].phase == c.requests[id].phase
  {
  }

  /** What a line says to the request it names: an error goes before a result, and nothing at all is null. */
  ghost predicate Says(line: Line, reply: Reply) {
    && line.Message?
    && reply == match (line.error, line.result)
         case (Some(Some(message)), _) => RpcError(message)
         case (Some(None), _) => RpcError("unknown MCP error")
         case (None, Some(value)) => Result(value)
         case (None, None) => Result("null")
  }

  /**
   * In every interleaving: an answer carries the request's own id and is what the first line naming it says that was
   * read after it was registered; a closed connection is reported only after the output ended without one; the
   * channel is never found abandoned; and a request that returned left nothing pending, unless the writer was closed.
   */
  lemma OutcomesAreSound(actions: seq<Action>, id: nat)
    ensures var c := Run(CONNECTED, actions); HasReturned(c, id) ==>
      var r := c.requests[id]; var first := FirstNaming(c.log, r.since, id);
      && !r.phase.outcome.ChannelClosed?
      && (r.phase.outcome.Answer? ==>
            r.phase.outcome.id == id && first.Some? && Says(first.value, r.phase.outcome.reply))
      && (r.phase.outcome.ConnectionClosed? ==> !c.readerOpen && first == None)
      && (id in c.pending ==> r.phase.outcome.WriterClosed? && !c.writerOpen)
  {
    InvAlways(CONNECTED, actions);
    var c := Run(CONNECTED, actions);
    if HasReturned(c, id) { assert RequestOk(c, id, c.requests[id]); }
  }

  // ---- a request from its start to its end ----

  /** A request left alone with the reader: its line is sent, and the line that names it is its answer. */
  lemma Exchange(c: Client, line: Line)
    requires Inv(c) && c.readerOpen && c.writerOpen && c.hand == NO_HAND && Names(line, c.nextId)
    ensures var id := c.nextId;
      var asked := Queue(Register(TakeId(c), id), id);
      var r := Receive(Deliver(ReadLine(asked, line), id), id);
      && In(asked, id, Waiting) && asked.pending == c.pending + {id} && id !in c.pending
      && HasReturned(r, id) && r.requests[id].phase.outcome.Answer?
      && r.requests[id].phase.outcome.id == id && Says(line, r.requests[id].phase.outcome.reply)
      && r.pending == c.pending && r.hand == NO_HAND && r.log == c.log + [line]
      && forall other :: other in c.requests ==> other in r.requests && r.requests[other] == c.requests[other]
  {
    var id := c.nextId;
    assert id !in c.requests && id !in c.pending;
    hide Inv;
    var registered := Register(TakeId(c), id);
    var asked := Queue(registered, id);
    assert In(asked, id, Waiting);
    var read := ReadLine(asked, line);
    assert read.pending == c.pending && read.hand == NO_HAND[id := Answer(id, Content(line))];
    var r := Receive(Deliver(read, id), id);
    assert (NO_HAND[id := Answer(id, Content(line))]) - {id} == NO_HAND;
  }

  /** A fresh connection numbers its requests from 1, and is heard and answered. */
  lemma FirstExchange(line: Line)
    requires Names(line, 1)
    ensures Inv(CONNECTED) && CONNECTED.nextId == 1 && CONNECTED.pending == {} && CONNECTED.log == []
    ensures var r := Receive(Deliver(ReadLine(Queue(Register(TakeId(CONNECTED), 1), 1), line), 1), 1);
      HasReturned(r, 1) && r.requests[1].phase.outcome.Answer? && Says(line, r.requests[1].phase.outcome.reply)
  {
    Exchange(CONNECTED, line);
  }

  /** The deadline of a waiting request takes its entry away; a caller that goes away leaves the entry. */
  lemma WaitingEnds(c: Client, id: nat)
    requires In(c, id, Waiting)
    ensures GiveUp(Expire(c, id), id) == c.(
      pending := c.pending - {id}, requests := c.requests[id := c.requests[id].(phase := Returned(TimedOut))])
    ensures Abandon(c, id) == c.(requests := c.requests[id := c.requests[id].(phase := Abandoned)])
  {
    assert c.requests[id := c.requests[id].(phase := Expired)][id := c.requests[id].(phase := Returned(TimedOut))]
      == c.requests[id := c.requests[id].(phase := Returned(TimedOut))];
  }

  /** A line that names no pending request is read, and does nothing. */
  lemma IgnoredLine(c: Client, line: Line)
    requires c.readerOpen && c.hand == NO_HAND && forall id :: id in c.pending ==> !Names(line, id)
    ensures ReadLine(c, line) == c.(log := c.log + [line])
  {
  }

  // ---- who can still be answered ----

  /** Answered, or told that the connection closed. */
  predicate Told(c: Client, id: nat) {
    HasReturned(c, id) && (c.requests[id].phase.outcome.Answer? || c.requests[id].phase.outcome.ConnectionClosed?)
  }

  ghost predicate CanBeTold(c: Client, id: nat) {
    exists more :: Told(Run(c, more), id)
  }

  /** The reader is there, or has the outcome in hand, or has sent it. */
  predicate WithinHearing(c: Client, id: nat)
    requires id in c.requests
  {
    c.readerOpen || id in c.hand || c.requests[id].slot.Some?
  }

  lemma RunOne(c: Client, a: Action, more: seq<Action>)
    ensures Run(c, [a] + more) == Run(Apply(c, a), more)
  {
    assert ([a] + more)[1..] == more;
  }

  lemma ToldLater(c: Client, a: Action, id: nat)
    requires CanBeTold(Apply(c, a), id)
    ensures CanBeTold(c, id)
  {
    hide Apply, Told, Run;
    var more :| Told(Run(Apply(c, a), more), id);
    RunOne(c, a, more);
  }

  lemma ToldNow(c: Client, id: nat)
    requires Told(c, id)
    ensures CanBeTold(c, id)
  {
    assert Run(c, []) == c;
  }

  lemma ToldFromSlot(c: Client, id: nat)
    requires Inv(c) && In(c, id, Waiting) && c.requests[id].slot.Some?
    ensures CanBeTold(c, id)
  {
    assert RequestOk(c, id, c.requests[id]);
    ToldNow(Receive(c, id), id);
    assert Apply(c, Reception(id)) == Receive(c, id);
    ToldLater(c, Reception(id), id);
  }

  lemma ToldFromHand(c: Client, id: nat)
    requires Inv(c) && In(c, id, Waiting) && id in c.hand
    ensures CanBeTold(c, id)
  {
    DeliverKeepsInv(c, id);
    assert Apply(c, Delivery(id)) == Deliver(c, id);
    hide Inv;
    ToldFromSlot(Deliver(c, id), id);
    ToldLater(c, Delivery(id), id);
  }

  /** With its hands empty, the reader comes to the end of the output. */
  lemma ToldAtTheEnd(c: Client, id: nat)
    requires Inv(c) && In(c, id, Waiting) && c.readerOpen && c.hand == NO_HAND && c.requests[id].slot.None?
    ensures CanBeTold(c, id)
  {
    assert RequestOk(c, id, c.requests[id]);
    EndKeepsInv(c);
    assert Apply(c, OutputEnded) == EndOfOutput(c);
    assert id in EndOfOutput(c).hand;
    hide Inv;
    ToldFromHand(EndOfOutput(c), id);
    ToldLater(c, OutputEnded, id);
  }

  lemma {:induction false} ToldByTheReader(c: Client, id: nat)
    requires Inv(c) && In(c, id, Waiting) && c.readerOpen
    ensures CanBeTold(c, id)
    decreases |c.hand|
  {
    hide Inv, Deliver, CanBeTold, Apply;
    if c.requests[id].slot.Some? {
      ToldFromSlot(c, id);
    } else if c.hand == NO_HAND {
      ToldAtTheEnd(c, id);
    } else {
      var other :| other in c.hand;
      DeliverKeepsInv(c, other);
      DeliverShrinks(c, other, id);
      ToldByTheReader(Deliver(c, other), id);
      ApplyDelivery(c, other);
      ToldLater(c, Delivery(other), id);
    }
  }

  lemma ApplyDelivery(c: Client, id: nat)
    ensures Apply(c, Delivery(id)) == Deliver(c, id)
  {
  }

  lemma DeliverShrinks(c: Client, other: nat, id: nat)
    requires other in c.hand && In(c, id, Waiting)
    ensures |Deliver(c, other).hand| < |c.hand| && In(Deliver(c, other), id, Waiting)
    ensures Deliver(c, other).readerOpen == c.readerOpen
  {
    assert (c.hand - {other}).Keys == c.hand.Keys - {other};
  }

  /** Registered after the output had ended, with nobody left to answer. */
  ghost predicate Unheard(c: Client, id: nat) {
    && !c.readerOpen && id in c.requests && id < c.nextId && id !in c.hand && c.requests[id].slot.None?
    && !Told(c, id) && c.requests[id].phase != HasId
    && (c.requests[id].phase == Registered || c.requests[id].phase == Waiting ==> id in c.pending)
  }

  lemma UnheardStays(c: Client, a: Action, id: nat)
    requires Unheard(c, id)
    ensures Unheard(Apply(c, a), id)
  {
  }

  lemma {:induction false} UnheardForGood(c: Client, more: seq<Action>, id: nat)
    requires Unheard(c, id)
    ensures Unheard(Run(c, more), id)
    decreases |more|
  {
    hide Unheard, Apply;
    if more != [] {
      UnheardStays(c, more[0], id);
      UnheardForGood(Apply(c, more[0]), more[1..], id);
    }
  }

  /**
   * In every reachable state: a waiting request can still be answered, or told that the connection closed, exactly
   * when the reader is there or has its outcome. After the end of the output it can only time out.
   */
  lemma CanBeToldIff(actions: seq<Action>, id: nat)
    requires In(Run(CONNECTED, actions), id, Waiting)
    ensures CanBeTold(Run(CONNECTED, actions), id) <==> WithinHearing(Run(CONNECTED, actions), id)
  {
    InvAlways(CONNECTED, actions);
    var c := Run(CONNECTED, actions);
    hide Run;
    assert RequestOk(c, id, c.requests[id]);
    if c.readerOpen {
      ToldByTheReader(c, id);
    } else if id in c.hand {
      ToldFromHand(c, id);
    } else if c.requests[id].slot.Some? {
      ToldFromSlot(c, id);
    } else {
      assert Unheard(c, id);
      hide Inv, RequestOk;
      forall more ensures !Told(Run(c, more), id) { UnheardForGood(c, more, id); }
    }
  }

  /** A request that comes after the end of the output is sent and waits for nobody. */
  lemma AskedTooLate()
    ensures var c := Run(CONNECTED, [OutputEnded, IdTaken, Registration(1), LineQueued(1)]);
      In(c, 1, Waiting) && 1 in c.pending && !CanBeTold(c, 1)
  {
    var actions := [OutputEnded, IdTaken, Registration(1), LineQueued(1)];
    var ended := EndOfOutput(CONNECTED);
    var c := Queue(Register(TakeId(ended), 1), 1);
    RunFour(CONNECTED, OutputEnded, IdTaken, Registration(1), LineQueued(1));
    assert ended.hand == NO_HAND;
    CanBeToldIff(actions, 1);
  }

  lemma RunFour(c: Client, w: Action, x: Action, y: Action, z: Action)
    ensures Run(c, [w, x, y, z]) == Apply(Apply(Apply(Apply(c, w), x), y), z)
  {
    hide Apply;
    var d, e, f := Apply(c, w), Apply(Apply(c, w), x), Apply(Apply(Apply(c, w), x), y);
    RunOne(c, w, [x, y, z]);
    RunOne(d, x, [y, z]);
    RunOne(e, y, [z]);
    RunOne(f, z, []);
    assert [w] + [x, y, z] == [w, x, y, z] && [x] + [y, z] == [x, y, z] && [y] + [z] == [y, z] && [z] + [] == [z];
  }

  // ---- the entry that a closed writer leaves behind ----

  /**
   * In every run: the entry of a request that returned because the writer was closed is still there exactly when
   * no line has named it since, and the output has not ended since it was registered.
   */
  lemma LeftoverIff(actions: seq<Action>, id: nat)
    ensures var c := Run(CONNECTED, actions); In(c, id, Returned(WriterClosed)) ==>
      (id in c.pending <==>
        FirstNaming(c.log, c.requests[id].since, id) == None && (c.readerOpen || !c.requests[id].heard))
  {
    InvAlways(CONNECTED, actions);
    var c := Run(CONNECTED, actions);
    if In(c, id, Returned(WriterClosed)) { assert RequestOk(c, id, c.requests[id]); }
  }

  /** Such an entry. */
  lemma ClosedWriterLeavesAnEntry()
    ensures var c := Run(CONNECTED, [IdTaken, WriterEnded, Registration(1), LineQueued(1)]);
      In(c, 1, Returned(WriterClosed)) && 1 in c.pending
  {
    RunFour(CONNECTED, IdTaken, WriterEnded, Registration(1), LineQueued(1));
  }

  // ---- requests of the server's own ----

  /** A reply, as JSON-RPC 2.0 section 5 has it: an id with an error or a result. */
  predicate IsResponse(line: Line) {
    Numbered(line) && (line.error.Some? || line.result.Some?)
  }

  /** The first response to `id` among the lines read from `since` on. */
  function FirstResponse(log: seq<Line>, since: nat, id: nat): (r: Option<Line>)
    ensures r.Some? ==> Names(r.value, id) && IsResponse(r.value)
  {
    if |log| <= since then None
    else
      var line := log[|log| - 1];
      match FirstResponse(log[..|log| - 1], since, id)
      case Some(l) => Some(l)
      case None => if Names(line, id) && IsResponse(line) then Some(line) else None
  }

  lemma {:induction false} ResponsesName(log: seq<Line>, since: nat, id: nat)
    ensures FirstResponse(log, since, id).Some? ==> FirstNaming(log, since, id).Some?
    ensures FirstNaming(log, since, id).Some? && IsResponse(FirstNaming(log, since, id).value) ==>
      FirstResponse(log, since, id) == FirstNaming(log, since, id)
  {
    if |log| > since { ResponsesName(log[..|log| - 1], since, id); }
  }

  /** The outcome of a request is what the server's first response to it says. */
  ghost predicate GetsItsResponse(c: Client, id: nat)
    requires HasReturned(c, id) && c.requests[id].phase.outcome.Answer?
  {
    var r := FirstResponse(c.log, c.requests[id].since, id);
    r.Some? && c.requests[id].phase.outcome.reply == Content(r.value)
  }

  /**
   * In every run: an answered request gets the content of the server's first response to it exactly when the
   * first line that names it since its registration is a response, and not a request of the server's own under
   * the same number; or when the response says null, which is what such a request is taken to say.
   */
  lemma GetsItsResponseIff(actions: seq<Action>, id: nat)
    ensures var c := Run(CONNECTED, actions); HasReturned(c, id) && c.requests[id].phase.outcome.Answer? ==>
      var since := c.requests[id].since;
      var first, response := FirstNaming(c.log, since, id), FirstResponse(c.log, since, id);
      && first.Some?
      && (GetsItsResponse(c, id) <==>
            IsResponse(first.value) || (response.Some? && Content(response.value) == Result("null")))
  {
    OutcomesAreSound(actions, id);
    var c := Run(CONNECTED, actions);
    if HasReturned(c, id) && c.requests[id].phase.outcome.Answer? {
      ResponsesName(c.log, c.requests[id].since, id);
    }
  }

  /** A request from the server whose id is pending here answers that request with null. */
  lemma ServerRequestAnswers(c: Client, line: Line)
    requires Numbered(line) && !IsResponse(line)
    requires c.readerOpen && c.hand == NO_HAND && In(c, line.id.value, Waiting) && line.id.value in c.pending
    ensures var id := line.id.value;
      In(Receive(Deliver(ReadLine(c, line), id), id), id, Returned(Answer(id, Result("null"))))
  {
  }

  // ---- the shared state, changed in place ----

  class McpClient {
    var nextId: nat
    var pending: set<nat>
    var requests: map<nat, Request>
    var writerOpen: bool
    var readerOpen: bool
    var log: seq<Line>

    function State(): Client
      reads this
    {
      Client(nextId, pending, requests, NO_HAND, writerOpen, readerOpen, log)
    }

    constructor ()
      ensures State() == CONNECTED
    {
      nextId, pending, requests := 1, {}, NO_REQUESTS;
      writerOpen, readerOpen, log := true, true, [];
    }

    /** The start of `request`, up to its await. */
    method Begin() returns (id: nat)
      modifies this
      ensures id == old(nextId)
      ensures State() == Queue(Register(TakeId(old(State())), id), id)
    {
      id := nextId;
      nextId := nextId + 1;
      pending := pending + {id};
      var phase := if writerOpen then Waiting else Returned(WriterClosed);
      requests := requests[id := Request(phase, |log|, readerOpen, None)];
    }

    /** The rest of `request`, its deadline passed. */
    method TimeOut(id: nat)
      modifies this
      ensures State() == GiveUp(Expire(old(State()), id), id)
    {
      if id in requests && (requests[id].phase == Waiting || requests[id].phase == Expired) {
        pending := pending - {id};
        requests := requests[id := requests[id].(phase := Returned(TimedOut))];
      }
    }

    /** One line in the reader. */
    method OnLine(line: Line)
      modifies this
      ensures var c := ReadLine(old(State()), line);
        State() == if Numbered(line) then Deliver(c, line.id.value) else c
    {
      if !readerOpen { return; }
      log := log + [line];
      if line.Blank? || line.NotJson? || line.id.None? { return; }
      var id := line.id.value;
      var reply := Result("null");
      if line.error.Some? {
        reply := RpcError(if line.error.value.Some? then line.error.value.value else "unknown MCP error");
      } else if line.result.Some? {
        reply := Result(line.result.value);
      }
      if id in pending {
        pending := pending - {id};
        Send(id, Answer(id, reply));
      }
    }

    method Send(id: nat, o: Outcome)
      modifies this`requests
      ensures requests == if id in old(requests) && Listening(old(requests[id]))
        then old(requests)[id := old(requests[id]).(slot := Some(o))] else old(requests)
    {
      if id in requests && Listening(requests[id]) {
        requests := requests[id := requests[id].(slot := Some(o))];
      }
    }

    /** The reader's last act: every pending request fails, in no particular order. */
    method OnClose()
      modifies this
      ensures State() == DeliverAll(EndOfOutput(old(State())))
    {
      hide Delivered, Closed, DeliverAll;
      CloseAll(State());
      if !readerOpen { return; }
      readerOpen := false;
      var all, was := pending, requests;
      pending := {};
      var left := all;
      while left != {}
        invariant left <= all
        invariant requests == Closed(was, all - left)
        invariant nextId == old(nextId) && writerOpen == old(writerOpen) && log == old(log) && !readerOpen
        invariant pending == {}
        decreases |left|
      {
        var id :| id in left;
        var done := all - left;
        left := left - {id};
        CloseOneMore(was, done, id);
        assert done + {id} == all - left;
        Send(id, ConnectionClosed);
      }
      assert all - left == all;
    }
  }

  lemma CloseAll(c: Client)
    requires c.hand == NO_HAND
    ensures DeliverAll(EndOfOutput(c)) ==
      if c.readerOpen then c.(readerOpen := false, pending := {}, requests := Closed(c.requests, c.pending)) else c
    ensures Closed(c.requests, c.pending - c.pending) == c.requests
  {
  }

  function Closed(requests: map<nat, Request>, ids: set<nat>): map<nat, Request> {
    Delivered(requests, map id | id in ids :: ConnectionClosed)
  }

  lemma CloseOneMore(requests: map<nat, Request>, ids: set<nat>, id: nat)
    requires id !in ids
    ensures var before := Closed(requests, ids);
      Closed(requests, ids + {id}) ==
      if id in before && Listening(before[id]) then before[id := before[id].(slot := Some(ConnectionClosed))] else
        before
  {
  }

  function Delivered(requests: map<nat, Request>, hand: map<nat, Outcome>): map<nat, Request> {
    map id | id in requests ::
      if id in hand && Listening(requests[id]) then requests[id].(slot := Some(hand[id])) else requests[id]
  }

  function DeliverAll(c: Client): Client {
    c.(requests := Delivered(c.requests, c.hand), hand := NO_HAND)
  }

  /** The order in which the senders are used does not matter. */
  lemma {:induction false} AnyOrderDeliversAll(c: Client, order: seq<nat>)
    requires forall id :: id in c.hand ==> id in order
    ensures Run(c, Delivers(order)) == DeliverAll(c)
    decreases |order|
  {
    if order == [] {
      assert c.hand == NO_HAND;
      assert Delivered(c.requests, c.hand) == c.requests;
    } else {
      var d := Deliver(c, order[0]);
      DeliverAllOneByOne(c, order[0]);
      hide Deliver, DeliverAll;
      AnyOrderDeliversAll(d, order[1..]);
      assert Delivers(order)[1..] == Delivers(order[1..]);
    }
  }

  lemma DeliverAllOneByOne(c: Client, id: nat)
    ensures DeliverAll(Deliver(c, id)) == DeliverAll(c)
    ensures Deliver(c, id).hand == c.hand - {id}
  {
  }

  function Delivers(order: seq<nat>): seq<Action> {
    if order == [] then [] else [Delivery(order[0])] + Delivers(order[1..])
  }
}
