/**
 Any number of concurrent requests in both directions between two connected
 ends, over a reliable first-in first-out data channel in each direction.

 A channel is the log of what its sender put in and the receiver's position in
 that log; so is the broadcast that spreads received messages to open calls.
 */
module Exchange {
  import opened Common
  import opened Response
  import Runs

  /** One `send`: where its receiver is in `heard`, and what it returned. */
  datatype Call = Call(payload: Payload, cursor: nat, acked: bool, result: Option<Result<Payload>>)

  /** One admitted remote request: the ack was attempted and got out, what the
      callback returned, whether the task is over and whether its reply got out. */
  datatype Handler = Handler(
    payload: Payload, ackTried: bool, ackSent: bool, outcome: Option<Result<Payload>>, done: bool, replied: bool)

  datatype Side = Side(
    wire: seq<SessionMessage>,
    read: nat,
    heard: seq<SessionMessage>,
    calls: map<string, Call>,
    handlers: map<string, Handler>)

  datatype World = World(host: Side, client: Side)

  const NEW_SIDE := Side([], 0, [], map[], map[])

  const NEW_WORLD := World(NEW_SIDE, NEW_SIDE)

  datatype Step =
    | Send(host: bool, id: string, payload: Payload, sent: bool)
    | Take(host: bool, admitted: bool)
    | Hear(host: bool, id: string)
    | GiveUp(host: bool, id: string, error: OpenLvError)
    | SendAck(host: bool, id: string, sent: bool)
    | RunCallback(host: bool, id: string, outcome: Result<Payload>)
    | SendReply(host: bool, id: string, sent: bool)
    | AbortHandler(host: bool, id: string)
    | SendClose(host: bool)

  function Get(w: World, host: bool): Side {
    if host then w.host else w.client
  }

  function Set(w: World, host: bool, side: Side): World {
    if host then w.(host := side) else w.(client := side)
  }

  predicate Open(side: Side, id: string) {
    id in side.calls && side.calls[id].result.None?
  }

  predicate Running(side: Side, id: string) {
    id in side.handlers && !side.handlers[id].done
  }

  /** Message ids are never reused; giving up covers every way that a call ends
      without an answer of its own. */
  predicate CanStep(w: World, s: Step) {
    var side, other := Get(w, s.host), Get(w, !s.host);
    match s
    case Send(_, id, _, _) => id !in side.calls && id !in other.calls
    case Take(_, _) => side.read < |other.wire|
    case Hear(_, id) => Open(side, id) && side.calls[id].cursor < |side.heard|
    case GiveUp(_, id, error) => Open(side, id) && error != RequestFailed
    case SendAck(_, id, _) => Running(side, id) && !side.handlers[id].ackTried
    case RunCallback(_, id, _) => Running(side, id) && side.handlers[id].ackTried && side.handlers[id].outcome.None?
    case SendReply(_, id, _) => Running(side, id) && side.handlers[id].outcome.Some?
    case AbortHandler(_, id) => Running(side, id)
    case SendClose(_) => true
  }

  function Put(side: Side, m: SessionMessage, sent: bool): Side {
    if sent then side.(wire := side.wire + [m]) else side
  }

  /** `handle_session_frame` on the next message of the data channel. */
  function TakeMessage(side: Side, m: SessionMessage, admitted: bool): Side {
    var moved := side.(read := side.read + 1);
    match m
    case Request(id, payload) =>
      if admitted then moved.(handlers := side.handlers[id := Handler(payload, false, false, None, false, false)])
      else moved
    case Unknown => moved
    case _ => moved.(heard := side.heard + [m])
  }

  /** One pass of the loop of `receive_response`. */
  function HearMessage(call: Call, id: string, m: SessionMessage): Call {
    var moved := call.(cursor := call.cursor + 1);
    match Classify(id, Message(m))
    case Acknowledged => moved.(acked := true)
    case Settled(result) => moved.(result := Some(result))
    case Unrelated => moved
  }

  function Perform(w: World, s: Step): World
    requires CanStep(w, s)
  {
    var side, other := Get(w, s.host), Get(w, !s.host);
    match s
    case Send(_, id, payload, sent) =>
      var result := if sent then None else Some(Err(TransportError));
      Set(w, s.host, Put(side.(calls := side.calls[id := Call(payload, |side.heard|, false, result)]), Request(id, payload), sent))
    case Take(_, admitted) => Set(w, s.host, TakeMessage(side, other.wire[side.read], admitted))
    case Hear(_, id) =>
      var call := side.calls[id];
      Set(w, s.host, side.(calls := side.calls[id := HearMessage(call, id, side.heard[call.cursor])]))
    case GiveUp(_, id, error) =>
      Set(w, s.host, side.(calls := side.calls[id := side.calls[id].(result := Some(Err(error)))]))
    case SendAck(_, id, sent) =>
      Set(w, s.host, Put(side.(handlers := side.handlers[id := side.handlers[id].(ackTried := true, ackSent := sent)]), Ack(id), sent))
    case RunCallback(_, id, outcome) =>
      Set(w, s.host, side.(handlers := side.handlers[id := side.handlers[id].(outcome := Some(outcome))]))
    case SendReply(_, id, sent) =>
      var handler := side.handlers[id];
      Set(w, s.host, Put(side.(handlers := side.handlers[id := handler.(done := true, replied := sent)]),
                         Reply(id, handler.outcome.value), sent))
    case AbortHandler(_, id) =>
      Set(w, s.host, side.(handlers := side.handlers[id := side.handlers[id].(done := true)]))
    case SendClose(_) => Set(w, s.host, Put(side, Close, true))
  }

  ghost predicate Next(w: World, w': World) {
    exists s :: CanStep(w, s) && Perform(w, s) == w'
  }

  ghost predicate IsRun(run: seq<World>) {
    Runs.IsRun(NEW_WORLD, Next, run)
  }

  // ----- what a wire says about one request

  predicate Answers(m: SessionMessage, id: string) {
    match m
    case Ack(i) => i == id
    case Response(i, _) => i == id
    case Failed(i) => i == id
    case _ => false
  }

  /** The acks and answers that a wire carries for one request, in order. */
  function ReplyTrace(wire: seq<SessionMessage>, id: string): seq<SessionMessage> {
    if wire == [] then []
    else
      var last := wire[|wire| - 1];
      ReplyTrace(wire[..|wire| - 1], id) + (if Answers(last, id) then [last] else [])
  }

  lemma ReplyTraceAppend(wire: seq<SessionMessage>, m: SessionMessage, id: string)
    ensures ReplyTrace(wire + [m], id) == ReplyTrace(wire, id) + (if Answers(m, id) then [m] else [])
  {
    assert (wire + [m])[..|wire + [m]| - 1] == wire;
  }

  lemma {:induction false} InReplyTrace(wire: seq<SessionMessage>, m: SessionMessage, id: string)
    requires m in wire && Answers(m, id)
    ensures m in ReplyTrace(wire, id)
    decreases |wire|
  {
    var shorter := wire[..|wire| - 1];
    if m != wire[|wire| - 1] {
      assert wire == shorter + [wire[|wire| - 1]];
      InReplyTrace(shorter, m, id);
    }
  }

  /** What a handler in its present state has put on the wire. */
  function TraceOf(id: string, h: Handler): seq<SessionMessage> {
    (if h.ackSent then [Ack(id)] else [])
    + (if h.replied && h.outcome.Some? then [Reply(id, h.outcome.value)] else [])
  }

  // ----- the invariant

  /** Each request on a wire is one open or ended call, and is there once. */
  predicate RequestsOk(wire: seq<SessionMessage>, calls: map<string, Call>) {
    && (forall i :: 0 <= i < |wire| && wire[i].Request? ==>
          wire[i].messageId in calls && calls[wire[i].messageId].payload == wire[i].payload)
    && (forall i, j :: 0 <= i < j < |wire| && wire[i].Request? && wire[j].Request? ==>
          wire[i].messageId != wire[j].messageId)
  }

  predicate Served(wire: seq<SessionMessage>, read: nat, request: SessionMessage, i: int) {
    0 <= i < read <= |wire| && wire[i] == request
  }

  /** Each handler serves a request already taken from the peer's wire. */
  ghost predicate HandlersOk(handlers: map<string, Handler>, wire: seq<SessionMessage>, read: nat) {
    && read <= |wire|
    && forall id :: id in handlers ==>
         && (exists i :: Served(wire, read, Request(id, handlers[id].payload), i))
         && (handlers[id].replied ==> handlers[id].outcome.Some? && handlers[id].done)
         && (handlers[id].ackSent ==> handlers[id].ackTried)
  }

  predicate TraceMatches(wire: seq<SessionMessage>, handlers: map<string, Handler>, id: string) {
    ReplyTrace(wire, id) == if id in handlers then TraceOf(id, handlers[id]) else []
  }

  ghost predicate TracesOk(wire: seq<SessionMessage>, handlers: map<string, Handler>) {
    forall id :: TraceMatches(wire, handlers, id)
  }

  predicate HeardOk(heard: seq<SessionMessage>, wire: seq<SessionMessage>) {
    forall m :: m in heard ==> m in wire
  }

  /** A returned answer is what the peer's callback returned for the same request. */
  predicate AnswerOk(call: Call, id: string, handlers: map<string, Handler>) {
    match call.result
    case Some(Ok(v)) => id in handlers && handlers[id].outcome == Some(Ok(v))
    case Some(Err(RequestFailed)) =>
      id in handlers && handlers[id].outcome.Some? && handlers[id].outcome.value.Err?
    case _ => true
  }

  predicate CallsOk(calls: map<string, Call>, handlers: map<string, Handler>) {
    forall id :: id in calls ==> AnswerOk(calls[id], id, handlers)
  }

  ghost predicate SideOk(side: Side, other: Side) {
    && RequestsOk(side.wire, side.calls)
    && HandlersOk(side.handlers, other.wire, side.read)
    && TracesOk(side.wire, side.handlers)
    && HeardOk(side.heard, other.wire)
    && CallsOk(side.calls, other.handlers)
    && (forall id :: id in side.calls ==> id !in other.calls)
  }

  ghost predicate Inv(w: World) {
    SideOk(w.host, w.client) && SideOk(w.client, w.host)
  }

  // ----- the other end, when one end takes a step

  /** Wires are only appended to; a handler stays, and its outcome is written once. */
  predicate Grows(side: Side, side': Side) {
    && side.wire <= side'.wire
    && (forall id :: id in side.handlers ==>
          && id in side'.handlers && side'.handlers[id].payload == side.handlers[id].payload
          && (side.handlers[id].outcome.Some? ==> side'.handlers[id].outcome == side.handlers[id].outcome))
  }

  lemma ServedStays(handlers: map<string, Handler>, wire: seq<SessionMessage>, wire': seq<SessionMessage>, read: nat, read': nat)
    requires HandlersOk(handlers, wire, read) && wire <= wire' && read <= read' <= |wire'|
    ensures HandlersOk(handlers, wire', read')
  {
    forall id | id in handlers
      ensures exists i :: Served(wire', read', Request(id, handlers[id].payload), i)
    {
      var i :| Served(wire, read, Request(id, handlers[id].payload), i);
      assert Served(wire', read', Request(id, handlers[id].payload), i);
    }
  }

  lemma PeerStaysOk(other: Side, side: Side, side': Side)
    requires SideOk(other, side) && Grows(side, side')
    requires forall id :: id in other.calls ==> id !in side'.calls
    ensures SideOk(other, side')
  {
    ServedStays(other.handlers, side.wire, side'.wire, other.read, other.read);
    assert forall m :: m in side.wire ==> m in side'.wire;
  }

  // ----- the end that takes a step

  /** Putting a message that answers no request leaves every trace as it is. */
  lemma PutOther(wire: seq<SessionMessage>, handlers: map<string, Handler>, m: SessionMessage)
    requires TracesOk(wire, handlers) && forall id :: !Answers(m, id)
    ensures TracesOk(wire + [m], handlers)
  {
    forall id ensures TraceMatches(wire + [m], handlers, id) {
      assert TraceMatches(wire, handlers, id);
      ReplyTraceAppend(wire, m, id);
    }
  }

  /** A handler that extends its own trace by the message it puts. */
  lemma PutAnswer(wire: seq<SessionMessage>, handlers: map<string, Handler>, id: string, h: Handler, m: SessionMessage)
    requires TracesOk(wire, handlers) && id in handlers && Answers(m, id)
    requires TraceOf(id, h) == TraceOf(id, handlers[id]) + [m]
    ensures TracesOk(wire + [m], handlers[id := h])
  {
    var wire', handlers' := wire + [m], handlers[id := h];
    forall i ensures TraceMatches(wire', handlers', i) {
      assert TraceMatches(wire, handlers, i);
      ReplyTraceAppend(wire, m, i);
    }
  }

  /** A handler that changes without putting anything. */
  lemma PutNothing(wire: seq<SessionMessage>, handlers: map<string, Handler>, id: string, h: Handler)
    requires TracesOk(wire, handlers)
    requires TraceOf(id, h) == if id in handlers then TraceOf(id, handlers[id]) else []
    ensures TracesOk(wire, handlers[id := h])
  {
    var handlers' := handlers[id := h];
    forall i ensures TraceMatches(wire, handlers', i) {
      assert TraceMatches(wire, handlers, i);
    }
  }

  /** A running handler's step: its trace grows by `m`, if that gets out. */
  lemma HandlerKeepsSide(side: Side, other: Side, id: string, h: Handler, m: SessionMessage, sent: bool)
    requires SideOk(side, other) && id in side.handlers && h.payload == side.handlers[id].payload
    requires (h.replied ==> h.outcome.Some? && h.done) && (h.ackSent ==> h.ackTried) && Answers(m, id)
    requires TraceOf(id, h) == TraceOf(id, side.handlers[id]) + (if sent then [m] else [])
    ensures SideOk(Put(side.(handlers := side.handlers[id := h]), m, sent), other)
  {
    if sent {
      PutAnswer(side.wire, side.handlers, id, h, m);
    } else {
      PutNothing(side.wire, side.handlers, id, h);
    }
    assert Request(id, h.payload) == Request(id, side.handlers[id].payload);
  }

  lemma SendKeepsSide(side: Side, other: Side, id: string, call: Call, sent: bool)
    requires SideOk(side, other) && id !in side.calls && id !in other.calls
    requires AnswerOk(call, id, other.handlers)
    ensures SideOk(Put(side.(calls := side.calls[id := call]), Request(id, call.payload), sent), other)
  {
    PutOther(side.wire, side.handlers, Request(id, call.payload));
  }

  /** A request that is next on the wire has no handler yet. */
  lemma NextRequestIsNew(side: Side, other: Side)
    requires SideOk(side, other) && SideOk(other, side) && side.read < |other.wire| && other.wire[side.read].Request?
    ensures other.wire[side.read].messageId !in side.handlers
  {
  }

  lemma AdmitKeepsHandlers(side: Side, other: Side, m: SessionMessage)
    requires HandlersOk(side.handlers, other.wire, side.read) && side.read < |other.wire|
    requires m == other.wire[side.read] && m.Request?
    ensures HandlersOk(TakeMessage(side, m, true).handlers, other.wire, side.read + 1)
  {
    ServedStays(side.handlers, other.wire, other.wire, side.read, side.read + 1);
    assert Served(other.wire, side.read + 1, m, side.read);
  }

  lemma AdmitKeepsSide(side: Side, other: Side, m: SessionMessage)
    requires SideOk(side, other) && SideOk(other, side) && side.read < |other.wire|
    requires m == other.wire[side.read] && m.Request?
    ensures SideOk(TakeMessage(side, m, true), other) && Grows(side, TakeMessage(side, m, true))
  {
    AdmitKeepsHandlers(side, other, m);
    NextRequestIsNew(side, other);
    PutNothing(side.wire, side.handlers, m.messageId, Handler(m.payload, false, false, None, false, false));
  }

  lemma TakeKeepsSide(side: Side, other: Side, admitted: bool)
    requires SideOk(side, other) && SideOk(other, side) && side.read < |other.wire|
    ensures SideOk(TakeMessage(side, other.wire[side.read], admitted), other)
    ensures Grows(side, TakeMessage(side, other.wire[side.read], admitted))
  {
    var m := other.wire[side.read];
    if m.Request? && admitted {
      AdmitKeepsSide(side, other, m);
    } else {
      ServedStays(side.handlers, other.wire, other.wire, side.read, side.read + 1);
    }
  }

  /** An answer that a call hears is the one the peer's handler sent for it. */
  lemma HeardAnswerIsTrue(wire: seq<SessionMessage>, handlers: map<string, Handler>, id: string, m: SessionMessage)
    requires TracesOk(wire, handlers) && m in wire && (m.Response? || m.Failed?) && m.messageId == id
    ensures id in handlers && handlers[id].outcome.Some? && m == Reply(id, handlers[id].outcome.value)
  {
    InReplyTrace(wire, m, id);
    assert TraceMatches(wire, handlers, id);
  }

  lemma HearKeepsCall(call: Call, id: string, other: Side, m: SessionMessage)
    requires TracesOk(other.wire, other.handlers) && m in other.wire && AnswerOk(call, id, other.handlers)
    ensures AnswerOk(HearMessage(call, id, m), id, other.handlers)
    ensures HearMessage(call, id, m).payload == call.payload
  {
    if (m.Response? || m.Failed?) && m.messageId == id {
      HeardAnswerIsTrue(other.wire, other.handlers, id, m);
    }
  }

  /** A call changes, but not what it asks. */
  lemma CallKeepsSide(side: Side, other: Side, id: string, call: Call)
    requires SideOk(side, other) && id in side.calls && call.payload == side.calls[id].payload
    requires AnswerOk(call, id, other.handlers)
    ensures SideOk(side.(calls := side.calls[id := call]), other)
  {
  }

  lemma CallStepKeepsSide(w: World, s: Step)
    requires Inv(w) && CanStep(w, s) && (s.Send? || s.Hear? || s.GiveUp?)
    ensures SideOk(Get(Perform(w, s), s.host), Get(w, !s.host)) && Grows(Get(w, s.host), Get(Perform(w, s), s.host))
  {
    var side, other := Get(w, s.host), Get(w, !s.host);
    match s
    case Send(_, id, payload, sent) =>
      SendKeepsSide(side, other, id, Call(payload, |side.heard|, false, if sent then None else Some(Err(TransportError))), sent);
    case Hear(_, id) =>
      var call := side.calls[id];
      HearKeepsCall(call, id, other, side.heard[call.cursor]);
      CallKeepsSide(side, other, id, HearMessage(call, id, side.heard[call.cursor]));
    case GiveUp(_, id, error) =>
      CallKeepsSide(side, other, id, side.calls[id].(result := Some(Err(error))));
  }

  lemma AckStepKeepsSide(w: World, s: Step)
    requires Inv(w) && CanStep(w, s) && s.SendAck?
    ensures SideOk(Get(Perform(w, s), s.host), Get(w, !s.host)) && Grows(Get(w, s.host), Get(Perform(w, s), s.host))
  {
    var side, h := Get(w, s.host), Get(w, s.host).handlers[s.id];
    HandlerKeepsSide(side, Get(w, !s.host), s.id, h.(ackTried := true, ackSent := s.sent), Ack(s.id), s.sent);
  }

  lemma CallbackStepKeepsSide(w: World, s: Step)
    requires Inv(w) && CanStep(w, s) && s.RunCallback?
    ensures SideOk(Get(Perform(w, s), s.host), Get(w, !s.host)) && Grows(Get(w, s.host), Get(Perform(w, s), s.host))
  {
    var side, h := Get(w, s.host), Get(w, s.host).handlers[s.id];
    HandlerKeepsSide(side, Get(w, !s.host), s.id, h.(outcome := Some(s.outcome)), Ack(s.id), false);
  }

  lemma ReplyStepKeepsSide(w: World, s: Step)
    requires Inv(w) && CanStep(w, s) && s.SendReply?
    ensures SideOk(Get(Perform(w, s), s.host), Get(w, !s.host)) && Grows(Get(w, s.host), Get(Perform(w, s), s.host))
  {
    var side, h := Get(w, s.host), Get(w, s.host).handlers[s.id];
    HandlerKeepsSide(side, Get(w, !s.host), s.id, h.(done := true, replied := s.sent),
                     Reply(s.id, h.outcome.value), s.sent);
  }

  lemma AbortStepKeepsSide(w: World, s: Step)
    requires Inv(w) && CanStep(w, s) && s.AbortHandler?
    ensures SideOk(Get(Perform(w, s), s.host), Get(w, !s.host)) && Grows(Get(w, s.host), Get(Perform(w, s), s.host))
  {
    var side, h := Get(w, s.host), Get(w, s.host).handlers[s.id];
    HandlerKeepsSide(side, Get(w, !s.host), s.id, h.(done := true), Ack(s.id), false);
  }

  lemma CloseKeepsSide(side: Side, other: Side)
    requires SideOk(side, other)
    ensures SideOk(Put(side, Close, true), other)
  {
    PutOther(side.wire, side.handlers, Close);
  }

  lemma StepKeepsInv(w: World, s: Step)
    requires Inv(w) && CanStep(w, s)
    ensures Inv(Perform(w, s)) && Grows(Get(w, s.host), Get(Perform(w, s), s.host))
    ensures Get(Perform(w, s), !s.host) == Get(w, !s.host)
  {
    var side, other := Get(w, s.host), Get(w, !s.host);
    if s.Send? || s.Hear? || s.GiveUp? {
      CallStepKeepsSide(w, s);
    } else if s.Take? {
      TakeKeepsSide(side, other, s.admitted);
    } else if s.SendClose? {
      CloseKeepsSide(side, other);
    } else if s.SendAck? {
      AckStepKeepsSide(w, s);
    } else if s.RunCallback? {
      CallbackStepKeepsSide(w, s);
    } else if s.SendReply? {
      ReplyStepKeepsSide(w, s);
    } else {
      AbortStepKeepsSide(w, s);
    }
    PeerStaysOk(other, side, Get(Perform(w, s), s.host));
  }

  // ----- what every run promises

  lemma NextKeepsInv(w: World, w': World, host: bool)
    requires Inv(w) && Next(w, w')
    ensures Inv(w') && Grows(Get(w, host), Get(w', host))
  {
    var s :| CanStep(w, s) && Perform(w, s) == w';
    StepKeepsInv(w, s);
  }

  lemma RunIsOk(run: seq<World>, m: nat, n: nat, host: bool)
    requires IsRun(run) && m <= n < |run|
    ensures Inv(run[m]) && Inv(run[n]) && Grows(Get(run[m], host), Get(run[n], host))
  {
    var rel := (w: World, w': World) => Grows(Get(w, host), Get(w', host));
    assert Inv(NEW_WORLD);
    forall w, w' | Inv(w) && Next(w, w') ensures Inv(w') && rel(w, w') {
      NextKeepsInv(w, w', host);
    }
    Runs.RelationHolds(NEW_WORLD, Next, Inv, rel, run, m, n);
    Runs.InvariantHolds(NEW_WORLD, Next, Inv, run, m);
  }

  /** The peer's callback ran for call `id`, on exactly the payload that was sent. */
  predicate Ran(other: Side, id: string, payload: Payload, outcome: Result<Payload>) {
    id in other.handlers && other.handlers[id].payload == payload && other.handlers[id].outcome == Some(outcome)
  }

  /** End-to-end correctness: a call that returned `Ok(v)` had the peer's
      callback run on its own payload and return `Ok(v)`; one that failed as
      `RequestFailed` had it return an error. */
  lemma RequestsAreAnsweredTruly(run: seq<World>, n: nat, host: bool, id: string)
    requires IsRun(run) && n < |run| && id in Get(run[n], host).calls
    ensures var call, peer := Get(run[n], host).calls[id], Get(run[n], !host);
            match call.result
            case Some(Ok(v)) => Ran(peer, id, call.payload, Ok(v))
            case Some(Err(RequestFailed)) => exists e :: Ran(peer, id, call.payload, Err(e))
            case _ => true
  {
    RunIsOk(run, n, n, host);
    var side, peer := Get(run[n], host), Get(run[n], !host);
    var call := side.calls[id];
    assert AnswerOk(call, id, peer.handlers);
    if id in peer.handlers {
      HandlerServesCall(peer, side, id);
      if call.result == Some(Err(RequestFailed)) {
        assert Ran(peer, id, call.payload, Err(peer.handlers[id].outcome.value.error));
      }
    }
  }

  lemma HandlerServesCall(peer: Side, side: Side, id: string)
    requires SideOk(peer, side) && SideOk(side, peer) && id in peer.handlers
    ensures id in side.calls && side.calls[id].payload == peer.handlers[id].payload
  {
    var i :| Served(side.wire, peer.read, Request(id, peer.handlers[id].payload), i);
    assert side.wire[i].Request?;
  }

  /** A request is handled at most once: an admitted request keeps its one
      handler, with its payload, and what its callback returned never changes. */
  lemma CallbackRunsOnce(run: seq<World>, m: nat, n: nat, host: bool, id: string)
    requires IsRun(run) && m <= n < |run| && id in Get(run[m], host).handlers
    ensures var before, after := Get(run[m], host).handlers, Get(run[n], host).handlers;
            && id in after && after[id].payload == before[id].payload
            && (before[id].outcome.Some? ==>
                  && after[id].outcome == before[id].outcome
                  && forall outcome :: !CanStep(run[n], RunCallback(host, id, outcome)))
  {
    RunIsOk(run, m, n, host);
  }

  /** What an end puts on the wire for one request is an optional ack and then at
      most one answer, the one its callback gave; nothing for a refused request. */
  lemma WireTracePerRequest(run: seq<World>, n: nat, host: bool, id: string)
    requires IsRun(run) && n < |run|
    ensures var side := Get(run[n], host);
            var trace := ReplyTrace(side.wire, id);
            && (id !in side.handlers ==> trace == [])
            && (id in side.handlers ==>
                  var outcome := side.handlers[id].outcome;
                  || trace == [] || trace == [Ack(id)]
                  || (outcome.Some? && trace == [Reply(id, outcome.value)])
                  || (outcome.Some? && trace == [Ack(id), Reply(id, outcome.value)]))
  {
    RunIsOk(run, n, n, host);
    var side := Get(run[n], host);
    assert TraceMatches(side.wire, side.handlers, id);
    if id in side.handlers && side.handlers[id].outcome.Some? {
      var reply := Reply(id, side.handlers[id].outcome.value);
      assert [] + [reply] == [reply] && [Ack(id)] + [reply] == [Ack(id), reply];
    }
  }

  // ----- what is read is heard, and what is heard decides

  /** The messages that spread to open calls. */
  function Spread(messages: seq<SessionMessage>): seq<SessionMessage> {
    if messages == [] then []
    else
      var last := messages[|messages| - 1];
      Spread(messages[..|messages| - 1]) + (if last.Request? || last.Unknown? then [] else [last])
  }

  lemma SpreadMore(messages: seq<SessionMessage>, m: SessionMessage)
    ensures Spread(messages + [m]) == Spread(messages) + (if m.Request? || m.Unknown? then [] else [m])
  {
    assert (messages + [m])[..|messages|] == messages;
  }

  lemma {:induction false} SpreadConcat(a: seq<SessionMessage>, b: seq<SessionMessage>)
    ensures Spread(a + b) == Spread(a) + Spread(b)
    decreases |b|
  {
    if b == [] {
      assert a + b == a;
    } else {
      var k := |b| - 1;
      assert a + b == (a + b[..k]) + [b[k]] && b == b[..k] + [b[k]];
      SpreadConcat(a, b[..k]);
      SpreadMore(a + b[..k], b[k]);
    }
  }

  predicate AllHeard(side: Side, other: Side) {
    side.read <= |other.wire| && side.heard == Spread(other.wire[..side.read])
  }

  /** Only taking a message reads one. */
  lemma OthersReadNothing(w: World, s: Step, host: bool)
    requires CanStep(w, s) && (s.Take? ==> s.host != host)
    ensures var (side, side') := (Get(w, host), Get(Perform(w, s), host));
            side'.read == side.read && side'.heard == side.heard && Get(w, !host).wire <= Get(Perform(w, s), !host).wire
  {
  }

  lemma ReadsOne(w: World, host: bool, admitted: bool)
    requires Inv(w) && CanStep(w, Take(host, admitted))
    ensures var (side, other, w') := (Get(w, host), Get(w, !host), Perform(w, Take(host, admitted)));
            var (m, side') := (other.wire[side.read], Get(w', host));
            && Inv(w') && Get(w', !host) == other && Grows(side, side')
            && side'.wire == side.wire && side'.calls == side.calls && side'.read == side.read + 1
            && side'.heard == side.heard + (if m.Request? || m.Unknown? then [] else [m])
            && (m.Request? && admitted ==> side'.handlers == side.handlers[m.messageId := Handler(m.payload, false, false, None, false, false)])
            && (!m.Request? || !admitted ==> side'.handlers == side.handlers)
  {
    StepKeepsInv(w, Take(host, admitted));
    var side := Get(w, host);
    assert side.heard + [] == side.heard;
  }

  lemma StepHearsAll(w: World, s: Step, host: bool)
    requires Inv(w) && CanStep(w, s) && AllHeard(Get(w, host), Get(w, !host))
    ensures AllHeard(Get(Perform(w, s), host), Get(Perform(w, s), !host))
  {
    var side, other := Get(w, host), Get(w, !host);
    if s.Take? && s.host == host {
      ReadsOne(w, host, s.admitted);
      assert other.wire[..side.read + 1] == other.wire[..side.read] + [other.wire[side.read]];
      SpreadMore(other.wire[..side.read], other.wire[side.read]);
    } else {
      OthersReadNothing(w, s, host);
      assert Get(Perform(w, s), !host).wire[..side.read] == other.wire[..side.read];
    }
  }

  /** In every run: what an end has spread to its calls is every message read from the
      data channel but requests and unknown ones, in order. */
  lemma HeardIsWhatWasRead(run: seq<World>, n: nat, host: bool)
    requires IsRun(run) && n < |run|
    ensures AllHeard(Get(run[n], host), Get(run[n], !host))
  {
    var inv := (w: World) => Inv(w) && AllHeard(Get(w, host), Get(w, !host));
    forall w, w' | inv(w) && Next(w, w') ensures inv(w') {
      var s :| CanStep(w, s) && Perform(w, s) == w';
      StepKeepsInv(w, s);
      StepHearsAll(w, s, host);
    }
    Runs.InvariantHolds(NEW_WORLD, Next, inv, run, n);
  }

  /** What one heard message does to an open call: its own response and failure decide
      it, as does a close; its ack is noted; nothing else matters. */
  lemma HearExactly(call: Call, id: string, m: SessionMessage)
    requires call.result.None?
    ensures HearMessage(call, id, m)
            == call.(cursor := call.cursor + 1,
                     acked := call.acked || m == Ack(id),
                     result := match m
                               case Response(i, v) => if i == id then Some(Ok(v)) else None
                               case Failed(i) => if i == id then Some(Err(RequestFailed)) else None
                               case Close => Some(Err(SessionClosed))
                               case _ => None)
  {
  }

  /** What a call returns for what the peer's callback returned. */
  function Returned(outcome: Result<Payload>): Result<Payload> {
    if outcome.Ok? then outcome else Err(RequestFailed)
  }

  /** In every run: a call that hears the answer to its own request returns what the
      peer's callback returned for it, an error as a failed request. */
  lemma HeardAnswerIsReturned(run: seq<World>, n: nat, host: bool, id: string)
    requires IsRun(run) && n < |run| && CanStep(run[n], Hear(host, id))
    requires var side := Get(run[n], host);
             var m := side.heard[side.calls[id].cursor];
             (m.Response? || m.Failed?) && m.messageId == id
    ensures var handlers := Get(run[n], !host).handlers;
            && id in handlers && handlers[id].outcome.Some?
            && Get(Perform(run[n], Hear(host, id)), host).calls[id].result == Some(Returned(handlers[id].outcome.value))
  {
    RunIsOk(run, n, n, host);
    var side, other := Get(run[n], host), Get(run[n], !host);
    var m := side.heard[side.calls[id].cursor];
    HeardAnswerIsTrue(other.wire, other.handlers, id, m);
    HearExactly(side.calls[id], id, m);
  }

  // ----- and every request can be answered

  function Run(w: World, steps: seq<Step>): World
    requires CanRun(w, steps)
    decreases |steps|
  {
    if steps == [] then w else Run(Perform(w, steps[0]), steps[1..])
  }

  /** Every step of the schedule is possible when its turn comes. */
  predicate CanRun(w: World, steps: seq<Step>)
    decreases |steps|
  {
    steps != [] ==> CanStep(w, steps[0]) && CanRun(Perform(w, steps[0]), steps[1..])
  }

  lemma {:induction false} RunConcat(w: World, first: seq<Step>, second: seq<Step>)
    requires CanRun(w, first) && CanRun(Run(w, first), second)
    ensures CanRun(w, first + second) && Run(w, first + second) == Run(Run(w, first), second)
    decreases |first|
  {
    if first == [] {
      assert first + second == second;
    } else {
      RunConcat(Perform(w, first[0]), first[1..], second);
      assert (first + second)[1..] == first[1..] + second;
    }
  }

  lemma RunMore(w: World, steps: seq<Step>, s: Step)
    requires CanRun(w, steps) && CanStep(Run(w, steps), s)
    ensures CanRun(w, steps + [s]) && Run(w, steps + [s]) == Perform(Run(w, steps), s)
  {
    assert [s][1..] == [];
    RunConcat(w, steps, [s]);
  }

  /** From `w` to `w'` one end has only read its data channel, up to position `k`. */
  predicate ReadTo(w: World, w': World, host: bool, k: nat) {
    var (side, other, side') := (Get(w, host), Get(w, !host), Get(w', host));
    && Get(w', !host) == other && side.read <= k <= |other.wire|
    && side'.wire == side.wire && side'.calls == side.calls && side'.read == k
    && side'.heard == side.heard + Spread(other.wire[side.read..k])
    && Grows(side, side')
  }

  lemma ReadToNext(w: World, host: bool)
    requires Inv(w) && CanStep(w, Take(host, true))
    ensures Inv(Perform(w, Take(host, true))) && ReadTo(w, Perform(w, Take(host, true)), host, Get(w, host).read + 1)
  {
    ReadsOne(w, host, true);
    var side, other := Get(w, host), Get(w, !host);
    SpreadFirst(other.wire[side.read..side.read + 1]);
  }

  lemma GrowsOn(u: Side, v: Side, w: Side)
    requires Grows(u, v) && Grows(v, w)
    ensures Grows(u, w)
  {
  }

  lemma SpreadOn(wire: seq<SessionMessage>, i: nat, j: nat, k: nat)
    requires i <= j <= k <= |wire|
    ensures Spread(wire[i..k]) == Spread(wire[i..j]) + Spread(wire[j..k])
  {
    assert wire[i..k] == wire[i..j] + wire[j..k];
    SpreadConcat(wire[i..j], wire[j..k]);
  }

  lemma HeardOn(a: seq<SessionMessage>, x: seq<SessionMessage>, y: seq<SessionMessage>, b: seq<SessionMessage>, c: seq<SessionMessage>)
    requires b == a + x && c == b + y
    ensures c == a + (x + y)
  {
  }

  lemma ReadToOn(w: World, w1: World, w': World, host: bool, k1: nat, k: nat)
    requires ReadTo(w, w1, host, k1) && ReadTo(w1, w', host, k)
    ensures ReadTo(w, w', host, k)
  {
    var (i, wire) := (Get(w, host).read, Get(w, !host).wire);
    GrowsOn(Get(w, host), Get(w1, host), Get(w', host));
    SpreadOn(wire, i, k1, k);
    HeardOn(Get(w, host).heard, Spread(wire[i..k1]), Spread(wire[k1..k]), Get(w1, host).heard, Get(w', host).heard);
  }

  lemma {:induction false} ReadsUpTo(w: World, host: bool, k: nat) returns (steps: seq<Step>)
    requires Inv(w) && Get(w, host).read <= k <= |Get(w, !host).wire|
    ensures CanRun(w, steps) && Inv(Run(w, steps)) && ReadTo(w, Run(w, steps), host, k)
    decreases k - Get(w, host).read
  {
    var side, other := Get(w, host), Get(w, !host);
    if side.read == k {
      steps := [];
      assert side.heard + [] == side.heard && other.wire[k..k] == [];
    } else {
      var s := Take(host, true);
      ReadToNext(w, host);
      var rest := ReadsUpTo(Perform(w, s), host, k);
      steps := [s] + rest;
      assert steps[1..] == rest;
      ReadToOn(w, Perform(w, s), Run(w, steps), host, side.read + 1, k);
    }
  }

  lemma SpreadFirst(messages: seq<SessionMessage>)
    requires messages != []
    ensures Spread(messages) == (if messages[0].Request? || messages[0].Unknown? then [] else [messages[0]]) + Spread(messages[1..])
  {
    var m := messages[0];
    assert messages == [m] + messages[1..];
    SpreadConcat([m], messages[1..]);
    assert [] + [m] == [m];
    SpreadMore([], m);
  }

  /** A call listens until the message at position `j`, which decides it. */
  lemma {:induction false} ListensUpTo(w: World, host: bool, id: string, j: nat, result: Result<Payload>) returns (steps: seq<Step>)
    requires Inv(w) && Open(Get(w, host), id) && Get(w, host).calls[id].cursor <= j < |Get(w, host).heard|
    requires forall i :: Get(w, host).calls[id].cursor <= i < j ==> !Decides(Get(w, host).heard[i], id)
    requires DecidesWith(Get(w, host).heard[j], id, result)
    ensures CanRun(w, steps) && id in Get(Run(w, steps), host).calls && Get(Run(w, steps), host).calls[id].result == Some(result)
    decreases j - Get(w, host).calls[id].cursor
  {
    var side := Get(w, host);
    var s := Hear(host, id);
    StepKeepsInv(w, s);
    HearExactly(side.calls[id], id, side.heard[side.calls[id].cursor]);
    if side.calls[id].cursor == j {
      steps := [s];
      assert steps[1..] == [];
    } else {
      var rest := ListensUpTo(Perform(w, s), host, id, j, result);
      steps := [s] + rest;
      assert steps[1..] == rest;
    }
  }

  predicate Decides(m: SessionMessage, id: string) {
    m == Close || ((m.Response? || m.Failed?) && m.messageId == id)
  }

  predicate DecidesWith(m: SessionMessage, id: string, result: Result<Payload>) {
    (result.Ok? && m == Response(id, result.value)) || (result == Err(RequestFailed) && m == Failed(id))
  }

  /** The caller's request is on its wire, last, and the call is open from now on. */
  predicate Asked(w: World, host: bool, id: string, payload: Payload) {
    var side := Get(w, host);
    && Open(side, id) && side.calls[id] == Call(payload, |side.heard|, false, None)
    && side.wire != [] && side.wire[|side.wire| - 1] == Request(id, payload)
    && id !in Get(w, !host).handlers && Get(w, !host).read < |side.wire|
  }

  lemma Asks(w: World, host: bool, id: string, payload: Payload)
    requires Inv(w) && CanStep(w, Send(host, id, payload, true))
    ensures var w' := Perform(w, Send(host, id, payload, true));
            && Inv(w') && Asked(w', host, id, payload) && Get(w', !host) == Get(w, !host)
            && Get(w', host) == Get(w, host).(wire := Get(w', host).wire, calls := Get(w', host).calls)
  {
    StepKeepsInv(w, Send(host, id, payload, true));
    if id in Get(w, !host).handlers {
      HandlerHasCall(w, host, id);
    }
  }

  /** A handler serves a call that was made. */
  lemma HandlerHasCall(w: World, host: bool, id: string)
    requires Inv(w) && id in Get(w, !host).handlers
    ensures id in Get(w, host).calls
  {
    var side, other := Get(w, host), Get(w, !host);
    var i :| Served(side.wire, other.read, Request(id, other.handlers[id].payload), i);
  }

  /** The handler of `id` that has just been admitted, in a world with nothing else changed. */
  lemma Admits(w: World, host: bool, id: string, payload: Payload) returns (steps: seq<Step>)
    requires Inv(w) && Asked(w, host, id, payload)
    ensures CanRun(w, steps) && Inv(Run(w, steps)) && Get(Run(w, steps), host) == Get(w, host)
    ensures var other := Get(Run(w, steps), !host);
            && other.wire == Get(w, !host).wire
            && id in other.handlers && other.handlers[id] == Handler(payload, false, false, None, false, false)
  {
    var p := |Get(w, host).wire| - 1;
    steps := ReadsUpTo(w, !host, p);
    var w' := Run(w, steps);
    NextRequestIsNew(Get(w', !host), Get(w', host));
    ReadsOne(w', !host, true);
    RunMore(w, steps, Take(!host, true));
    steps := steps + [Take(!host, true)];
  }

  lemma Acks(w: World, host: bool, id: string)
    requires Inv(w) && CanStep(w, SendAck(host, id, true))
    ensures var (w', side) := (Perform(w, SendAck(host, id, true)), Get(w, host));
            && Inv(w') && Get(w', !host) == Get(w, !host) && Get(w', host).wire == side.wire + [Ack(id)]
            && id in Get(w', host).handlers
            && Get(w', host).handlers[id] == side.handlers[id].(ackTried := true, ackSent := true)
  {
    StepKeepsInv(w, SendAck(host, id, true));
  }

  lemma CallsBack(w: World, host: bool, id: string, outcome: Result<Payload>)
    requires Inv(w) && CanStep(w, RunCallback(host, id, outcome))
    ensures var (w', side) := (Perform(w, RunCallback(host, id, outcome)), Get(w, host));
            && Inv(w') && Get(w', !host) == Get(w, !host) && Get(w', host).wire == side.wire
            && id in Get(w', host).handlers && Get(w', host).handlers[id] == side.handlers[id].(outcome := Some(outcome))
  {
    StepKeepsInv(w, RunCallback(host, id, outcome));
  }

  lemma Replies(w: World, host: bool, id: string)
    requires Inv(w) && CanStep(w, SendReply(host, id, true))
    ensures var (w', side) := (Perform(w, SendReply(host, id, true)), Get(w, host));
            && Inv(w') && Get(w', !host) == Get(w, !host)
            && Get(w', host).wire == side.wire + [Reply(id, side.handlers[id].outcome.value)]
  {
    StepKeepsInv(w, SendReply(host, id, true));
  }

  lemma RunOne(w: World, s: Step)
    requires CanStep(w, s)
    ensures CanRun(w, [s]) && Run(w, [s]) == Perform(w, s)
  {
    assert [s][1..] == [];
  }

  lemma RunTwo(w: World, s: Step, steps: seq<Step>)
    requires CanStep(w, s) && CanRun(Perform(w, s), steps)
    ensures CanRun(w, [s] + steps) && Run(w, [s] + steps) == Run(Perform(w, s), steps)
  {
    assert ([s] + steps)[1..] == steps;
  }

  lemma AcksAndCallsBack(w: World, host: bool, id: string, payload: Payload, outcome: Result<Payload>) returns (steps: seq<Step>)
    requires Inv(w) && id in Get(w, host).handlers
    requires Get(w, host).handlers[id] == Handler(payload, false, false, None, false, false)
    ensures CanRun(w, steps) && Inv(Run(w, steps)) && Get(Run(w, steps), !host) == Get(w, !host)
    ensures var side := Get(Run(w, steps), host);
            && side.wire == Get(w, host).wire + [Ack(id)]
            && id in side.handlers && side.handlers[id] == Handler(payload, true, true, Some(outcome), false, false)
  {
    var s1, s2 := SendAck(host, id, true), RunCallback(host, id, outcome);
    Acks(w, host, id);
    var w1 := Perform(w, s1);
    CallsBack(w1, host, id, outcome);
    RunOne(w1, s2);
    RunTwo(w, s1, [s2]);
    steps := [s1] + [s2];
  }

  /** An admitted handler acks, runs its callback, which returns `outcome`, and replies. */
  lemma Serves(w: World, host: bool, id: string, payload: Payload, outcome: Result<Payload>) returns (steps: seq<Step>)
    requires Inv(w) && id in Get(w, !host).handlers
    requires Get(w, !host).handlers[id] == Handler(payload, false, false, None, false, false)
    ensures CanRun(w, steps) && Inv(Run(w, steps)) && Get(Run(w, steps), host) == Get(w, host)
    ensures Get(Run(w, steps), !host).wire == Get(w, !host).wire + [Ack(id)] + [Reply(id, outcome)]
  {
    steps := AcksAndCallsBack(w, !host, id, payload, outcome);
    var w2, s3 := Run(w, steps), SendReply(!host, id, true);
    Replies(w2, !host, id);
    RunMore(w, steps, s3);
    steps := steps + [s3];
  }

  lemma NothingAnswersYet(w: World, host: bool, id: string)
    requires Inv(w) && id !in Get(w, !host).handlers
    ensures forall m :: m in Get(w, !host).wire ==> !Answers(m, id)
  {
    var other := Get(w, !host);
    assert TraceMatches(other.wire, other.handlers, id);
    forall m | m in other.wire ensures !Answers(m, id) {
      if Answers(m, id) {
        InReplyTrace(other.wire, m, id);
      }
    }
  }

  lemma {:induction false} SpreadIsSubset(messages: seq<SessionMessage>)
    ensures forall m :: m in Spread(messages) ==> m in messages
    decreases |messages|
  {
    if messages != [] {
      SpreadIsSubset(messages[..|messages| - 1]);
    }
  }

  /** What is heard of an unread wire that ends in an ack and an answer. */
  lemma SpreadOfAnswer(unread: seq<SessionMessage>, id: string, outcome: Result<Payload>)
    ensures Spread(unread + [Ack(id)] + [Reply(id, outcome)]) == Spread(unread) + [Ack(id)] + [Reply(id, outcome)]
    ensures forall m :: m in Spread(unread) ==> m in unread
  {
    SpreadMore(unread + [Ack(id)], Reply(id, outcome));
    SpreadMore(unread, Ack(id));
    SpreadIsSubset(unread);
  }

  /** Nothing decides a call between where it listens and its answer, which is last. */
  lemma OnlyLastDecides(earlier: seq<SessionMessage>, unread: seq<SessionMessage>, heard: seq<SessionMessage>, id: string, outcome: Result<Payload>)
    requires heard == earlier + (Spread(unread) + [Ack(id)] + [Reply(id, outcome)])
    requires forall m :: m in unread ==> !Decides(m, id)
    ensures |heard| > |earlier| && DecidesWith(heard[|heard| - 1], id, Returned(outcome))
    ensures forall i :: |earlier| <= i < |heard| - 1 ==> !Decides(heard[i], id)
  {
    SpreadOfAnswer(unread, id, outcome);
    forall i | |earlier| <= i < |heard| - 1 ensures !Decides(heard[i], id) {
      if i < |heard| - 2 {
        assert heard[i] == Spread(unread)[i - |earlier|];
        assert heard[i] in Spread(unread);
      }
    }
  }

  /** An open call hears everything up to its answer, which is last on the peer's wire. */
  lemma HearsAnswer(w: World, host: bool, id: string, before: seq<SessionMessage>, outcome: Result<Payload>) returns (steps: seq<Step>)
    requires Inv(w) && Open(Get(w, host), id) && Get(w, host).calls[id].cursor == |Get(w, host).heard|
    requires Get(w, !host).wire == before + [Ack(id)] + [Reply(id, outcome)] && Get(w, host).read <= |before|
    requires forall m :: m in before[Get(w, host).read..] ==> !Decides(m, id)
    ensures CanRun(w, steps) && id in Get(Run(w, steps), host).calls
    ensures Get(Run(w, steps), host).calls[id].result == Some(Returned(outcome))
  {
    var side, wire := Get(w, host), Get(w, !host).wire;
    var first := ReadsUpTo(w, host, |wire|);
    var w' := Run(w, first);
    var heard, unread := Get(w', host).heard, before[side.read..];
    assert wire[side.read..|wire|] == unread + [Ack(id)] + [Reply(id, outcome)];
    SpreadOfAnswer(unread, id, outcome);
    OnlyLastDecides(side.heard, unread, heard, id, outcome);
    var second := ListensUpTo(w', host, id, |heard| - 1, Returned(outcome));
    RunConcat(w, first, second);
    steps := first + second;
  }

  predicate CloseUnread(side: Side, other: Side) {
    exists i :: side.read <= i < |other.wire| && other.wire[i] == Close
  }

  /** Every request can be answered: in every reachable world, for any fresh id, any
      payload and anything that the peer's callback may return for it, a send, an
      admission, the handler's steps and the reading of both channels make the call
      return just that, unless a close of the peer is still unread. */
  lemma EveryRequestCanBeAnswered(run: seq<World>, n: nat, host: bool, id: string, payload: Payload, outcome: Result<Payload>)
    returns (steps: seq<Step>)
    requires IsRun(run) && n < |run| && CanStep(run[n], Send(host, id, payload, true))
    requires !CloseUnread(Get(run[n], host), Get(run[n], !host))
    ensures CanRun(run[n], steps) && id in Get(Run(run[n], steps), host).calls
    ensures Get(Run(run[n], steps), host).calls[id].result == Some(Returned(outcome))
  {
    RunIsOk(run, n, n, host);
    var w, s := run[n], Send(host, id, payload, true);
    var side, other := Get(w, host), Get(w, !host);
    Asks(w, host, id, payload);
    var w1 := Perform(w, s);
    NothingAnswersYet(w1, host, id);
    var first := Admits(w1, host, id, payload);
    var w2 := Run(w1, first);
    var second := Serves(w2, host, id, payload, outcome);
    var w3 := Run(w2, second);
    forall m | m in other.wire[side.read..] ensures !Decides(m, id) {
      assert m in other.wire && !Answers(m, id);
    }
    var third := HearsAnswer(w3, host, id, other.wire, outcome);
    RunConcat(w1, first, second);
    RunConcat(w1, first + second, third);
    steps := [s] + (first + second + third);
    assert steps[1..] == first + second + third;
  }
}
