/** The messages of a session and the two-phase wait for a response. */
module Response {
  import opened Common

  datatype SessionMessage =
    | Request(messageId: string, payload: Payload)
    | Response(messageId: string, payload: Payload)
    | Ack(messageId: string)
    | Failed(messageId: string)
    | Close
    | Unknown

  function Reply(messageId: string, outcome: Result<Payload>): SessionMessage {
    match outcome
    case Ok(payload) => Response(messageId, payload)
    case Err(_) => Failed(messageId)
  }

  /** What the broadcast receiver yields: a message, or an error because the
      channel closed or the receiver lagged. */
  datatype Received = Message(message: SessionMessage) | ChannelError

  /** What one received item means to the request `id`. */
  datatype Meaning = Acknowledged | Settled(result: Result<Payload>) | Unrelated

  function Classify(id: string, r: Received): Meaning {
    match r
    case ChannelError => Settled(Err(ResponseChannelClosed))
    case Message(m) =>
      match m
      case Ack(i) => if i == id then Acknowledged else Unrelated
      case Response(i, payload) => if i == id then Settled(Ok(payload)) else Unrelated
      case Failed(i) => if i == id then Settled(Err(RequestFailed)) else Unrelated
      case Close => Settled(Err(SessionClosed))
      case _ => Unrelated
  }

  /** An item and the instant at which it can be received, in milliseconds. */
  datatype Arrival = Arrival(at: nat, received: Received)

  predicate Ordered(trace: seq<Arrival>) {
    forall i, j :: 0 <= i < j < |trace| ==> trace[i].at <= trace[j].at
  }

  /** A result and the instant at which it is returned. */
  datatype Outcome = Outcome(result: Result<Payload>, at: nat)

  function Later(a: nat, b: nat): nat {
    if a < b then b else a
  }

  /** The wait from `now` on: a ready item is taken before the timer is looked
      at, and the deadline is checked again before every receive. */
  function Wait(trace: seq<Arrival>, id: string, acked: bool, deadline: nat, now: nat, response: nat, limit: nat): Outcome
    decreases |trace|
  {
    if now >= deadline then Outcome(Err(RequestTimeout(acked)), now)
    else if trace == [] || trace[0].at > deadline then Outcome(Err(RequestTimeout(acked)), deadline)
    else
      var t := Later(now, trace[0].at);
      match Classify(id, trace[0].received)
      case Acknowledged =>
        if acked then Wait(trace[1..], id, true, deadline, t, response, limit)
        else if t + response > limit then Outcome(Err(InvalidRequestTimeout), t)
        else Wait(trace[1..], id, true, t + response, t, response, limit)
      case Settled(result) => Outcome(result, t)
      case Unrelated => Wait(trace[1..], id, acked, deadline, t, response, limit)
  }

  /** `limit` is the last representable instant. */
  function Receive(trace: seq<Arrival>, id: string, ack: nat, response: nat, start: nat, limit: nat): Outcome {
    if start + ack > limit then Outcome(Err(InvalidRequestTimeout), start)
    else Wait(trace, id, false, start + ack, start, response, limit)
  }

  method ReceiveResponse(trace: seq<Arrival>, id: string, ackTimeout: nat, responseTimeout: nat, start: nat, limit: nat)
    returns (outcome: Outcome)
    ensures outcome == Receive(trace, id, ackTimeout, responseTimeout, start, limit)
  {
    if start + ackTimeout > limit {
      return Outcome(Err(InvalidRequestTimeout), start);
    }
    var deadline: nat := start + ackTimeout;
    var ackReceived := false;
    var now: nat, next: nat := start, 0;
    while true
      invariant next <= |trace|
      invariant Wait(trace[next..], id, ackReceived, deadline, now, responseTimeout, limit)
             == Receive(trace, id, ackTimeout, responseTimeout, start, limit)
      decreases |trace| - next
    {
      if now >= deadline {
        return Outcome(Err(RequestTimeout(ackReceived)), now);
      }
      if next == |trace| || trace[next].at > deadline {
        return Outcome(Err(RequestTimeout(ackReceived)), deadline);
      }
      var received := trace[next].received;
      now := Later(now, trace[next].at);
      next := next + 1;
      match Classify(id, received) {
        case Acknowledged =>
          if !ackReceived {
            if now + responseTimeout > limit {
              return Outcome(Err(InvalidRequestTimeout), now);
            }
            deadline := now + responseTimeout;
            ackReceived := true;
          }
        case Settled(result) =>
          return Outcome(result, now);
        case Unrelated =>
      }
    }
  }

  // ----- the reference: only the first two items that matter count

  /** The trace without unrelated messages and repeated acknowledgements. */
  function Essential(trace: seq<Arrival>, id: string, acked: bool): seq<Arrival> {
    if trace == [] then []
    else
      match Classify(id, trace[0].received)
      case Acknowledged => if acked then Essential(trace[1..], id, true) else [trace[0]] + Essential(trace[1..], id, true)
      case Settled(_) => [trace[0]] + Essential(trace[1..], id, acked)
      case Unrelated => Essential(trace[1..], id, acked)
  }

  /** Whether an item arrives in time for `deadline`. */
  predicate InTime(items: seq<Arrival>, deadline: nat) {
    items != [] && items[0].at <= deadline
  }

  /** The verdict on the items that matter after an acknowledgement at `now`. */
  function AfterAck(items: seq<Arrival>, id: string, deadline: nat, now: nat): Outcome {
    if now >= deadline || !InTime(items, deadline) then Outcome(Err(RequestTimeout(true)), deadline)
    else
      match Classify(id, items[0].received)
      case Settled(result) => Outcome(result, Later(now, items[0].at))
      case _ => Outcome(Err(RequestTimeout(true)), deadline)
  }

  /** The verdict on the items that matter: settle by the first, unless it is
      the acknowledgement, and then by the second, each within its own deadline. */
  function Verdict(items: seq<Arrival>, id: string, ack: nat, response: nat, start: nat, limit: nat): Outcome {
    if start + ack > limit then Outcome(Err(InvalidRequestTimeout), start)
    else if ack == 0 then Outcome(Err(RequestTimeout(false)), start)
    else VerdictBy(items, id, start + ack, start, response, limit)
  }

  /** The same from `now` on, with the first deadline at a given instant. */
  function VerdictBy(items: seq<Arrival>, id: string, deadline: nat, now: nat, response: nat, limit: nat): Outcome {
    if !InTime(items, deadline) then Outcome(Err(RequestTimeout(false)), deadline)
    else
      var t := Later(now, items[0].at);
      match Classify(id, items[0].received)
      case Settled(result) => Outcome(result, t)
      case _ =>
        if t + response > limit then Outcome(Err(InvalidRequestTimeout), t)
        else AfterAck(items[1..], id, t + response, t)
  }

  /** An unrelated item is next in line exactly at the deadline, ahead of one that
      matters and arrives at that same instant. */
  ghost predicate TieAt(trace: seq<Arrival>, id: string, acked: bool, deadline: nat) {
    exists k :: Hides(trace, id, acked, deadline, k)
  }

  predicate Hides(trace: seq<Arrival>, id: string, acked: bool, deadline: nat, k: int) {
    && 0 <= k < |trace| && trace[k].at == deadline
    && Essential(trace[..k + 1], id, acked) == []
    && InTime(Essential(trace[k + 1..], id, acked), deadline)
  }

  // ----- where the loop and the reference differ

  predicate Ignored(id: string, acked: bool, a: Arrival) {
    var meaning := Classify(id, a.received);
    meaning.Unrelated? || (acked && meaning.Acknowledged?)
  }

  /** Leading items that do not matter can be dropped. */
  lemma {:induction false} DropIgnored(trace: seq<Arrival>, id: string, acked: bool, k: nat)
    requires k <= |trace| && Essential(trace[..k], id, acked) == []
    ensures Essential(trace, id, acked) == Essential(trace[k..], id, acked)
    decreases k
  {
    if k > 0 {
      assert trace[..k][1..] == trace[1..][..k - 1];
      assert trace[..k][0] == trace[0];
      DropIgnored(trace[1..], id, acked, k - 1);
      assert trace[1..][k - 1..] == trace[k..];
    }
  }

  /** What matters in an ordered trace arrives no earlier than the trace begins. */
  lemma {:induction false} EssentialNotEarlier(trace: seq<Arrival>, id: string, acked: bool)
    requires Ordered(trace) && Essential(trace, id, acked) != []
    ensures Essential(trace, id, acked)[0].at >= trace[0].at
    decreases |trace|
  {
    if Ignored(id, acked, trace[0]) {
      EssentialNotEarlier(trace[1..], id, acked);
    }
  }

  lemma TieShifts(trace: seq<Arrival>, id: string, acked: bool, deadline: nat)
    requires trace != [] && Ignored(id, acked, trace[0]) && trace[0].at < deadline
    ensures TieAt(trace, id, acked, deadline) <==> TieAt(trace[1..], id, acked, deadline)
  {
    forall k | 0 < k < |trace|
      ensures Hides(trace, id, acked, deadline, k) <==> Hides(trace[1..], id, acked, deadline, k - 1)
    {
      assert trace[..k + 1][1..] == trace[1..][..k] && trace[k + 1..] == trace[1..][k..];
    }
    if TieAt(trace[1..], id, acked, deadline) {
      var k :| Hides(trace[1..], id, acked, deadline, k);
      assert Hides(trace, id, acked, deadline, k + 1);
    }
  }

  /** An ignored item exactly at the deadline hides what still arrives then. */
  lemma TieHere(trace: seq<Arrival>, id: string, acked: bool, deadline: nat)
    requires trace != [] && Ignored(id, acked, trace[0]) && trace[0].at == deadline
    ensures TieAt(trace, id, acked, deadline) <==> InTime(Essential(trace, id, acked), deadline)
  {
    assert trace[..1][1..] == [] && trace[..1][0] == trace[0];
    assert Essential(trace[..1], id, acked) == [];
    assert trace[0 + 1..] == trace[1..];
    assert Hides(trace, id, acked, deadline, 0) <==> InTime(Essential(trace[1..], id, acked), deadline);
    forall k | Hides(trace, id, acked, deadline, k)
      ensures InTime(Essential(trace, id, acked), deadline)
    {
      DropIgnored(trace, id, acked, k + 1);
    }
  }

  lemma NoTie(trace: seq<Arrival>, id: string, acked: bool, deadline: nat)
    requires trace == [] || !Ignored(id, acked, trace[0]) || (Ordered(trace) && trace[0].at > deadline)
    ensures !TieAt(trace, id, acked, deadline)
  {
  }

  /** After the acknowledgement the loop agrees with the reference exactly when there is no tie. */
  lemma {:induction false} AfterAckExact(trace: seq<Arrival>, id: string, deadline: nat, now: nat, response: nat, limit: nat)
    requires Ordered(trace) && now < deadline
    ensures Wait(trace, id, true, deadline, now, response, limit) == AfterAck(Essential(trace, id, true), id, deadline, now)
       <==> !TieAt(trace, id, true, deadline)
    decreases |trace|
  {
    if trace == [] || trace[0].at > deadline {
      NoTie(trace, id, true, deadline);
      if Essential(trace, id, true) != [] { EssentialNotEarlier(trace, id, true); }
    } else if !Ignored(id, true, trace[0]) {
      NoTie(trace, id, true, deadline);
    } else if trace[0].at == deadline {
      TieHere(trace, id, true, deadline);
      AfterAckSettles(trace, id, deadline, now);
    } else {
      AfterAckExact(trace[1..], id, deadline, Later(now, trace[0].at), response, limit);
      TieShifts(trace, id, true, deadline);
      if Essential(trace, id, true) != [] { EssentialNotEarlier(trace, id, true); }
    }
  }

  /** After an acknowledgement, what matters settles the request. */
  lemma {:induction false} AfterAckSettles(trace: seq<Arrival>, id: string, deadline: nat, now: nat)
    ensures var items := Essential(trace, id, true);
            items != [] ==> Classify(id, items[0].received).Settled?
    ensures now < deadline && InTime(Essential(trace, id, true), deadline) ==>
              forall acked :: AfterAck(Essential(trace, id, true), id, deadline, now).result != Err(RequestTimeout(acked))
    decreases |trace|
  {
    if trace != [] && Ignored(id, true, trace[0]) {
      AfterAckSettles(trace[1..], id, deadline, now);
    }
  }

  /** Where the request's first acknowledgement is, if nothing settles it before. */
  function FirstAck(trace: seq<Arrival>, id: string): (first: Option<nat>)
    ensures first.Some? ==>
              && first.value < |trace| && Classify(id, trace[first.value].received) == Acknowledged
              && forall i :: 0 <= i < first.value ==> Classify(id, trace[i].received) == Unrelated
  {
    if trace == [] then None
    else
      match Classify(id, trace[0].received)
      case Acknowledged => Some(0)
      case Settled(_) => None
      case Unrelated =>
        var rest := FirstAck(trace[1..], id);
        if rest.Some? then Some(rest.value + 1) else None
  }

  /** The first acknowledgement is the first item that matters. */
  lemma {:induction false} FirstAckMatters(trace: seq<Arrival>, id: string)
    requires FirstAck(trace, id).Some?
    ensures var items := Essential(trace, id, false);
            items != [] && items[0] == trace[FirstAck(trace, id).value]
    decreases |trace|
  {
    if Ignored(id, false, trace[0]) {
      FirstAckMatters(trace[1..], id);
    }
  }

  /** A tie at the deadline that an acknowledgement at `at` sets, in what follows it. */
  ghost predicate TieAfterAck(rest: seq<Arrival>, id: string, at: nat, response: nat, limit: nat) {
    response > 0 && at + response <= limit && TieAt(rest, id, true, at + response)
  }

  /** A tie in the second phase: after an acknowledgement that arrived in time. */
  ghost predicate SecondTie(trace: seq<Arrival>, id: string, deadline: nat, response: nat, start: nat, limit: nat) {
    var first := FirstAck(trace, id);
    && first.Some? && trace[first.value].at <= deadline
    && TieAfterAck(trace[first.value + 1..], id, Later(start, trace[first.value].at), response, limit)
  }

  /** A tie at the deadline of either phase: before the acknowledgement, or after
      the one that arrived in time and moved the deadline. */
  ghost predicate Tie(trace: seq<Arrival>, id: string, ack: nat, response: nat, start: nat, limit: nat) {
    start + ack <= limit && ack > 0 && TieBy(trace, id, start + ack, response, start, limit)
  }

  ghost predicate TieBy(trace: seq<Arrival>, id: string, deadline: nat, response: nat, now: nat, limit: nat) {
    TieAt(trace, id, false, deadline) || SecondTie(trace, id, deadline, response, now, limit)
  }

  /** Starting later, but before the next item that matters, changes no verdict. */
  lemma VerdictShifts(items: seq<Arrival>, id: string, deadline: nat, now: nat, t: nat, response: nat, limit: nat)
    requires now <= t < deadline <= limit && (items != [] ==> Later(now, items[0].at) == Later(t, items[0].at))
    ensures VerdictBy(items, id, deadline, now, response, limit) == VerdictBy(items, id, deadline, t, response, limit)
  {
  }

  lemma SecondTieShifts(trace: seq<Arrival>, id: string, deadline: nat, now: nat, t: nat, response: nat, limit: nat)
    requires Ordered(trace) && trace != [] && Ignored(id, false, trace[0])
    requires t == Later(now, trace[0].at)
    ensures SecondTie(trace, id, deadline, response, now, limit) <==> SecondTie(trace[1..], id, deadline, response, t, limit)
  {
    FirstAckShifts(trace, id);
    var later := FirstAck(trace[1..], id);
    if later.Some? {
      assert trace[1..][later.value] == trace[later.value + 1];
      assert Later(now, trace[later.value + 1].at) == Later(t, trace[later.value + 1].at);
    }
  }

  lemma WholeTieShifts(trace: seq<Arrival>, id: string, deadline: nat, now: nat, response: nat, limit: nat)
    requires Ordered(trace) && now < deadline <= limit
    requires trace != [] && Ignored(id, false, trace[0]) && trace[0].at < deadline
    ensures var t := Later(now, trace[0].at);
            TieBy(trace, id, deadline, response, now, limit) <==> TieBy(trace[1..], id, deadline, response, t, limit)
  {
    TieShifts(trace, id, false, deadline);
    SecondTieShifts(trace, id, deadline, now, Later(now, trace[0].at), response, limit);
  }

  /** A tie in the second phase needs an acknowledgement in time. */
  lemma SecondTieIsInTime(trace: seq<Arrival>, id: string, deadline: nat, now: nat, response: nat, limit: nat)
    requires Ordered(trace) && SecondTie(trace, id, deadline, response, now, limit)
    ensures InTime(Essential(trace, id, false), deadline)
  {
    FirstAckMatters(trace, id);
  }

  lemma TieAtDeadline(trace: seq<Arrival>, id: string, deadline: nat, now: nat, response: nat, limit: nat)
    requires Ordered(trace) && trace != [] && Ignored(id, false, trace[0]) && trace[0].at == deadline
    ensures TieBy(trace, id, deadline, response, now, limit) <==> InTime(Essential(trace, id, false), deadline)
  {
    TieHere(trace, id, false, deadline);
    if SecondTie(trace, id, deadline, response, now, limit) {
      SecondTieIsInTime(trace, id, deadline, now, response, limit);
    }
  }

  /** A verdict at the first deadline says that nothing was in time. */
  lemma VerdictAtDeadline(items: seq<Arrival>, id: string, deadline: nat, now: nat, response: nat, limit: nat)
    requires now < deadline
    requires forall i :: 0 <= i < |items| ==> Classify(id, items[i].received) != Unrelated
    ensures VerdictBy(items, id, deadline, now, response, limit) == Outcome(Err(RequestTimeout(false)), deadline)
       <==> !InTime(items, deadline)
  {
    if InTime(items, deadline) && Classify(id, items[0].received).Acknowledged? {
      assert Later(now, items[0].at) + response <= limit ==>
               AfterAck(items[1..], id, Later(now, items[0].at) + response, Later(now, items[0].at)).result != Err(RequestTimeout(false));
    }
  }

  lemma {:induction false} EssentialMatters(trace: seq<Arrival>, id: string, acked: bool)
    ensures forall i :: 0 <= i < |Essential(trace, id, acked)| ==> Classify(id, Essential(trace, id, acked)[i].received) != Unrelated
    decreases |trace|
  {
    if trace != [] {
      EssentialMatters(trace[1..], id, acked);
      EssentialMatters(trace[1..], id, true);
    }
  }

  lemma AtDeadlineExact(trace: seq<Arrival>, id: string, deadline: nat, now: nat, response: nat, limit: nat)
    requires Ordered(trace) && now < deadline <= limit
    requires trace != [] && Ignored(id, false, trace[0]) && trace[0].at == deadline
    ensures VerdictBy(Essential(trace, id, false), id, deadline, now, response, limit)
            == Outcome(Err(RequestTimeout(false)), deadline)
       <==> !TieBy(trace, id, deadline, response, now, limit)
  {
    TieAtDeadline(trace, id, deadline, now, response, limit);
    EssentialMatters(trace, id, false);
    VerdictAtDeadline(Essential(trace, id, false), id, deadline, now, response, limit);
  }

  lemma FirstMattersExact(trace: seq<Arrival>, id: string, deadline: nat, now: nat, response: nat, limit: nat)
    requires Ordered(trace) && now < deadline <= limit
    requires trace != [] && !Ignored(id, false, trace[0]) && trace[0].at <= deadline
    ensures Wait(trace, id, false, deadline, now, response, limit)
         == VerdictBy(Essential(trace, id, false), id, deadline, now, response, limit)
       <==> !TieBy(trace, id, deadline, response, now, limit)
  {
    NoTie(trace, id, false, deadline);
    var t := Later(now, trace[0].at);
    if FirstAck(trace, id).Some? && response > 0 && t + response <= limit {
      AfterAckExact(trace[1..], id, t + response, t, response, limit);
    }
  }

  lemma {:induction false} BeforeAckExact(trace: seq<Arrival>, id: string, deadline: nat, now: nat, response: nat, limit: nat)
    requires Ordered(trace) && now < deadline <= limit
    ensures Wait(trace, id, false, deadline, now, response, limit)
         == VerdictBy(Essential(trace, id, false), id, deadline, now, response, limit)
       <==> !TieBy(trace, id, deadline, response, now, limit)
    decreases |trace|
  {
    if trace == [] || trace[0].at > deadline {
      NoTie(trace, id, false, deadline);
      if Essential(trace, id, false) != [] { EssentialNotEarlier(trace, id, false); }
    } else if !Ignored(id, false, trace[0]) {
      FirstMattersExact(trace, id, deadline, now, response, limit);
    } else if trace[0].at == deadline {
      AtDeadlineExact(trace, id, deadline, now, response, limit);
    } else {
      var t := Later(now, trace[0].at);
      BeforeAckExact(trace[1..], id, deadline, t, response, limit);
      WholeTieShifts(trace, id, deadline, now, response, limit);
      var items := Essential(trace, id, false);
      if items != [] {
        EssentialNotEarlier(trace[1..], id, false);
      }
      VerdictShifts(items, id, deadline, now, t, response, limit);
    }
  }

  lemma FirstAckShifts(trace: seq<Arrival>, id: string)
    requires trace != [] && Ignored(id, false, trace[0])
    ensures var first, later := FirstAck(trace, id), FirstAck(trace[1..], id);
            && first.Some? == later.Some?
            && (first.Some? ==>
                  && first.value == later.value + 1
                  && trace[first.value + 1..] == trace[1..][later.value + 1..])
  {
  }

  lemma WaitsUntil(trace: seq<Arrival>, items: seq<Arrival>, id: string, ack: nat, response: nat, start: nat, limit: nat)
    requires start + ack <= limit && ack > 0
    ensures Receive(trace, id, ack, response, start, limit) == Wait(trace, id, false, start + ack, start, response, limit)
    ensures Verdict(items, id, ack, response, start, limit) == VerdictBy(items, id, start + ack, start, response, limit)
    ensures Tie(trace, id, ack, response, start, limit) <==> TieBy(trace, id, start + ack, response, start, limit)
  {
  }

  /** The verdict of the loop is the one from its first deadline on. */
  lemma ExactFromDeadline(trace: seq<Arrival>, items: seq<Arrival>, id: string, ack: nat, response: nat, start: nat, limit: nat)
    requires start + ack <= limit && ack > 0
    requires Wait(trace, id, false, start + ack, start, response, limit) == VerdictBy(items, id, start + ack, start, response, limit)
        <==> !TieBy(trace, id, start + ack, response, start, limit)
    ensures Receive(trace, id, ack, response, start, limit) == Verdict(items, id, ack, response, start, limit)
       <==> !Tie(trace, id, ack, response, start, limit)
  {
    WaitsUntil(trace, items, id, ack, response, start, limit);
  }

  lemma NeverWaits(trace: seq<Arrival>, items: seq<Arrival>, id: string, ack: nat, response: nat, start: nat, limit: nat)
    requires start + ack > limit || ack == 0
    ensures Receive(trace, id, ack, response, start, limit) == Verdict(items, id, ack, response, start, limit)
    ensures !Tie(trace, id, ack, response, start, limit)
  {
  }

  lemma ExactWithin(trace: seq<Arrival>, items: seq<Arrival>, id: string, ack: nat, response: nat, start: nat, limit: nat)
    requires Ordered(trace) && items == Essential(trace, id, false) && start + ack <= limit && ack > 0
    ensures Receive(trace, id, ack, response, start, limit) == Verdict(items, id, ack, response, start, limit)
       <==> !Tie(trace, id, ack, response, start, limit)
  {
    BeforeAckFor(trace, items, id, start + ack, start, response, limit);
    ExactFromDeadline(trace, items, id, ack, response, start, limit);
  }

  lemma ExactFor(trace: seq<Arrival>, items: seq<Arrival>, id: string, ack: nat, response: nat, start: nat, limit: nat)
    requires Ordered(trace) && items == Essential(trace, id, false)
    ensures Receive(trace, id, ack, response, start, limit) == Verdict(items, id, ack, response, start, limit)
       <==> !Tie(trace, id, ack, response, start, limit)
  {
    if start + ack <= limit && ack > 0 {
      ExactWithin(trace, items, id, ack, response, start, limit);
    } else {
      NeverWaits(trace, items, id, ack, response, start, limit);
    }
  }

  lemma BeforeAckFor(trace: seq<Arrival>, items: seq<Arrival>, id: string, deadline: nat, now: nat, response: nat, limit: nat)
    requires Ordered(trace) && now < deadline <= limit && items == Essential(trace, id, false)
    ensures Wait(trace, id, false, deadline, now, response, limit) == VerdictBy(items, id, deadline, now, response, limit)
       <==> !TieBy(trace, id, deadline, response, now, limit)
  {
    BeforeAckExact(trace, id, deadline, now, response, limit);
  }

  /** The deadline loop gives the verdict on the items that matter if and only if
      no tie hides one of them. */
  lemma DeadlineLoopExact(trace: seq<Arrival>, id: string, ack: nat, response: nat, start: nat, limit: nat)
    requires Ordered(trace)
    ensures Receive(trace, id, ack, response, start, limit) == Verdict(Essential(trace, id, false), id, ack, response, start, limit)
       <==> !Tie(trace, id, ack, response, start, limit)
  {
    ExactFor(trace, Essential(trace, id, false), id, ack, response, start, limit);
  }

  /** Without an arrival exactly at a deadline, unrelated messages and repeated
      acknowledgements change nothing. */
  lemma NoArrivalAtDeadline(trace: seq<Arrival>, id: string, ack: nat, response: nat, start: nat, limit: nat)
    requires Ordered(trace)
    requires forall i :: 0 <= i < |trace| ==> trace[i].at != start + ack
    requires var first := FirstAck(trace, id);
             first.Some? ==> forall i :: first.value < i < |trace| ==>
                               trace[i].at != Later(start, trace[first.value].at) + response
    ensures Receive(trace, id, ack, response, start, limit)
         == Verdict(Essential(trace, id, false), id, ack, response, start, limit)
  {
    DeadlineLoopExact(trace, id, ack, response, start, limit);
  }

  /** A tie is real: an unrelated message that arrives with the response at the
      very deadline turns a success into a timeout. */
  lemma TieIsObservable()
    ensures var noise := Arrival(10, Message(Unknown));
            var answer := Arrival(10, Message(Response("r", "v")));
            && Receive([noise, answer], "r", 10, 5, 0, 100).result == Err(RequestTimeout(false))
            && Receive([answer], "r", 10, 5, 0, 100).result == Ok("v")
            && Tie([noise, answer], "r", 10, 5, 0, 100)
  {
    var noise := Arrival(10, Message(Unknown));
    var answer := Arrival(10, Message(Response("r", "v")));
    assert [noise, answer][1..] == [answer] && [answer][1..] == [];
    TieHere([noise, answer], "r", false, 10);
  }

  /** The wait is bounded: it returns within the two timeouts together. */
  lemma {:induction false} WaitIsBounded(trace: seq<Arrival>, id: string, acked: bool, deadline: nat, now: nat, response: nat, limit: nat)
    requires now <= deadline
    ensures Wait(trace, id, acked, deadline, now, response, limit).at <= deadline + (if acked then 0 else response)
    decreases |trace|
  {
    if now < deadline && trace != [] && trace[0].at <= deadline {
      var t := Later(now, trace[0].at);
      match Classify(id, trace[0].received)
      case Acknowledged =>
        WaitIsBounded(trace[1..], id, true, if acked then deadline else t + response, t, response, limit);
      case Settled(_) =>
      case Unrelated => WaitIsBounded(trace[1..], id, acked, deadline, t, response, limit);
    }
  }

  lemma ReceiveIsBounded(trace: seq<Arrival>, id: string, ack: nat, response: nat, start: nat, limit: nat)
    ensures start <= Receive(trace, id, ack, response, start, limit).at <= start + ack + response
  {
    if start + ack <= limit {
      WaitIsBounded(trace, id, false, start + ack, start, response, limit);
      WaitGoesForward(trace, id, false, start + ack, start, response, limit);
    }
  }

  lemma {:induction false} WaitGoesForward(trace: seq<Arrival>, id: string, acked: bool, deadline: nat, now: nat, response: nat, limit: nat)
    ensures Wait(trace, id, acked, deadline, now, response, limit).at >= now
    decreases |trace|
  {
    if now < deadline && trace != [] && trace[0].at <= deadline {
      var t := Later(now, trace[0].at);
      match Classify(id, trace[0].received)
      case Acknowledged =>
        WaitGoesForward(trace[1..], id, true, if acked then deadline else t + response, t, response, limit);
      case Settled(_) =>
      case Unrelated => WaitGoesForward(trace[1..], id, acked, deadline, t, response, limit);
    }
  }

  // ----- when each result is returned, item by item

  /** The item settles the request `id`, and with what. */
  predicate SettlesWith(r: Received, id: string, result: Result<Payload>) {
    || (result.Ok? && r == Message(Response(id, result.value)))
    || (result == Err(RequestFailed) && r == Message(Failed(id)))
    || (result == Err(SessionClosed) && r == Message(Close))
    || (result == Err(ResponseChannelClosed) && r == ChannelError)
  }

  predicate Settling(r: Received, id: string) {
    || (r.Message? && r.message.Response? && r.message.messageId == id)
    || r == Message(Failed(id)) || r == Message(Close) || r == ChannelError
  }

  predicate IsAck(r: Received, id: string) {
    r == Message(Ack(id))
  }

  /** Item `k` is received in a phase that goes from `now` to `deadline`: it arrives in
      time, and everything before it was received before the deadline. */
  predicate InPhase(trace: seq<Arrival>, now: nat, deadline: nat, k: int) {
    && 0 <= k < |trace| && trace[k].at <= deadline && now < deadline
    && forall j :: 0 <= j < k ==> trace[j].at < deadline
  }

  /** The first phase ends with item `k`: nothing before it settles or acknowledges. */
  predicate FirstPhase(trace: seq<Arrival>, id: string, now: nat, deadline: nat, k: int) {
    && InPhase(trace, now, deadline, k)
    && forall j :: 0 <= j < k ==> !Settling(trace[j].received, id) && !IsAck(trace[j].received, id)
  }

  /** The second phase ends with item `k`: nothing before it settles. */
  predicate SecondPhase(trace: seq<Arrival>, id: string, now: nat, deadline: nat, k: int) {
    && InPhase(trace, now, deadline, k)
    && forall j :: 0 <= j < k ==> !Settling(trace[j].received, id)
  }

  lemma MeaningOf(id: string, r: Received)
    ensures Classify(id, r) == Acknowledged <==> IsAck(r, id)
    ensures Classify(id, r).Settled? <==> Settling(r, id)
    ensures Classify(id, r).Settled? ==> SettlesWith(r, id, Classify(id, r).result)
    ensures forall result :: SettlesWith(r, id, result) ==> Classify(id, r) == Settled(result)
  {
  }

  /** A phase that goes on after its first item. */
  lemma PhaseShifts(trace: seq<Arrival>, id: string, now: nat, deadline: nat)
    requires Ordered(trace) && trace != [] && trace[0].at < deadline && now < deadline
    ensures var t := Later(now, trace[0].at);
            forall k :: 0 < k < |trace| ==>
              && (!Settling(trace[0].received, id) ==>
                    (SecondPhase(trace, id, now, deadline, k) <==> SecondPhase(trace[1..], id, t, deadline, k - 1)))
              && (!Settling(trace[0].received, id) && !IsAck(trace[0].received, id) ==>
                    (FirstPhase(trace, id, now, deadline, k) <==> FirstPhase(trace[1..], id, t, deadline, k - 1)))
  {
    var t := Later(now, trace[0].at);
    forall k | 0 < k < |trace|
      ensures InPhase(trace, now, deadline, k) <==> InPhase(trace[1..], t, deadline, k - 1)
      ensures forall j :: 0 < j < k ==> trace[j] == trace[1..][j - 1]
    {
      assert forall j :: 0 < j < k ==> trace[j] == trace[1..][j - 1];
      assert forall j :: 0 <= j < k - 1 ==> trace[1..][j] == trace[j + 1];
    }
  }

  /** After the acknowledgement, item `k` decides, and when, if it ends the phase and settles. */
  lemma {:induction false} SecondPhaseDecides(
      trace: seq<Arrival>, id: string, deadline: nat, now: nat, response: nat, limit: nat, k: nat, result: Result<Payload>)
    requires Ordered(trace) && SecondPhase(trace, id, now, deadline, k) && SettlesWith(trace[k].received, id, result)
    ensures Wait(trace, id, true, deadline, now, response, limit) == Outcome(result, Later(now, trace[k].at))
    decreases k
  {
    MeaningOf(id, trace[0].received);
    if k > 0 {
      PhaseShifts(trace, id, now, deadline);
      SecondPhaseDecides(trace[1..], id, deadline, Later(now, trace[0].at), response, limit, k - 1, result);
    }
  }

  /** Otherwise it times out as acknowledged. */
  lemma {:induction false} SecondPhaseTimesOut(trace: seq<Arrival>, id: string, deadline: nat, now: nat, response: nat, limit: nat)
    requires Ordered(trace)
    requires forall k :: SecondPhase(trace, id, now, deadline, k) ==> !Settling(trace[k].received, id)
    ensures Wait(trace, id, true, deadline, now, response, limit) == Outcome(Err(RequestTimeout(true)), Later(now, deadline))
    decreases |trace|
  {
    if now < deadline && trace != [] && trace[0].at <= deadline {
      MeaningOf(id, trace[0].received);
      assert SecondPhase(trace, id, now, deadline, 0);
      var t := Later(now, trace[0].at);
      if t < deadline {
        PhaseShifts(trace, id, now, deadline);
        forall k | SecondPhase(trace[1..], id, t, deadline, k) ensures !Settling(trace[1..][k].received, id) {
          assert SecondPhase(trace, id, now, deadline, k + 1);
        }
        SecondPhaseTimesOut(trace[1..], id, deadline, t, response, limit);
      }
    }
  }

  /** Before the acknowledgement, an item that ends the first phase and settles decides. */
  lemma {:induction false} FirstPhaseDecides(
      trace: seq<Arrival>, id: string, deadline: nat, now: nat, response: nat, limit: nat, k: nat, result: Result<Payload>)
    requires Ordered(trace) && FirstPhase(trace, id, now, deadline, k) && SettlesWith(trace[k].received, id, result)
    ensures Wait(trace, id, false, deadline, now, response, limit) == Outcome(result, Later(now, trace[k].at))
    decreases k
  {
    MeaningOf(id, trace[0].received);
    if k > 0 {
      PhaseShifts(trace, id, now, deadline);
      assert trace[1..][k - 1] == trace[k];
      FirstPhaseDecides(trace[1..], id, deadline, Later(now, trace[0].at), response, limit, k - 1, result);
    }
  }

  /** And an acknowledgement starts the second phase. */
  lemma {:induction false} FirstPhaseGoesOn(
      trace: seq<Arrival>, id: string, deadline: nat, now: nat, response: nat, limit: nat, k: nat)
    requires Ordered(trace) && FirstPhase(trace, id, now, deadline, k) && IsAck(trace[k].received, id)
    ensures var t := Later(now, trace[k].at);
            Wait(trace, id, false, deadline, now, response, limit)
            == if t + response > limit then Outcome(Err(InvalidRequestTimeout), t)
               else Wait(trace[k + 1..], id, true, t + response, t, response, limit)
    decreases k
  {
    MeaningOf(id, trace[0].received);
    if k > 0 {
      PhaseShifts(trace, id, now, deadline);
      assert trace[1..][k - 1] == trace[k] && trace[1..][k..] == trace[k + 1..];
      FirstPhaseGoesOn(trace[1..], id, deadline, Later(now, trace[0].at), response, limit, k - 1);
    }
  }

  lemma {:induction false} FirstPhaseTimesOut(trace: seq<Arrival>, id: string, deadline: nat, now: nat, response: nat, limit: nat)
    requires Ordered(trace)
    requires forall k :: FirstPhase(trace, id, now, deadline, k) ==> !Settling(trace[k].received, id) && !IsAck(trace[k].received, id)
    ensures Wait(trace, id, false, deadline, now, response, limit) == Outcome(Err(RequestTimeout(false)), Later(now, deadline))
    decreases |trace|
  {
    if now < deadline && trace != [] && trace[0].at <= deadline {
      MeaningOf(id, trace[0].received);
      assert FirstPhase(trace, id, now, deadline, 0);
      var t := Later(now, trace[0].at);
      if t < deadline {
        PhaseShifts(trace, id, now, deadline);
        forall k | FirstPhase(trace[1..], id, t, deadline, k)
          ensures !Settling(trace[1..][k].received, id) && !IsAck(trace[1..][k].received, id)
        {
          assert FirstPhase(trace, id, now, deadline, k + 1);
        }
        FirstPhaseTimesOut(trace[1..], id, deadline, t, response, limit);
      }
    }
  }

  /** Item `a` acknowledges in time, as the first that matters. */
  predicate AcknowledgedBy(trace: seq<Arrival>, id: string, ack: nat, start: nat, a: int) {
    FirstPhase(trace, id, start, start + ack, a) && IsAck(trace[a].received, id)
  }

  /** Item `k` settles in time, before any acknowledgement. */
  predicate SettledEarly(trace: seq<Arrival>, id: string, ack: nat, start: nat, k: int) {
    FirstPhase(trace, id, start, start + ack, k) && Settling(trace[k].received, id)
  }

  /** Item `k` settles in time, after the acknowledgement `a` moved the deadline. */
  predicate SettledAfter(trace: seq<Arrival>, id: string, ack: nat, response: nat, start: nat, a: int, k: int) {
    && AcknowledgedBy(trace, id, ack, start, a) && a < k < |trace|
    && (var t := Later(start, trace[a].at);
        SecondPhase(trace[a + 1..], id, t, t + response, k - a - 1) && Settling(trace[k].received, id))
  }

  /** An item of the trace settles the wait. */
  ghost predicate SettledBy(trace: seq<Arrival>, id: string, ack: nat, response: nat, start: nat, limit: nat, k: int) {
    && start + ack <= limit
    && (|| SettledEarly(trace, id, ack, start, k)
        || exists a :: SettledAfter(trace, id, ack, response, start, a, k) && Later(start, trace[a].at) + response <= limit)
  }

  lemma SettledAfterDecides(
      trace: seq<Arrival>, id: string, ack: nat, response: nat, start: nat, limit: nat, a: nat, k: nat, result: Result<Payload>)
    requires Ordered(trace) && start + ack <= limit
    requires SettledAfter(trace, id, ack, response, start, a, k) && Later(start, trace[a].at) + response <= limit
    requires SettlesWith(trace[k].received, id, result)
    ensures Receive(trace, id, ack, response, start, limit) == Outcome(result, Later(start, trace[k].at))
  {
    var t, rest := Later(start, trace[a].at), trace[a + 1..];
    AcknowledgedGoesOn(trace, id, ack, response, start, limit, a);
    OrderedAfter(trace, a + 1);
    assert rest[k - a - 1] == trace[k];
    SecondPhaseDecides(rest, id, t + response, t, response, limit, k - a - 1, result);
  }

  lemma SettledByDecides(trace: seq<Arrival>, id: string, ack: nat, response: nat, start: nat, limit: nat, k: nat, result: Result<Payload>)
    requires Ordered(trace) && SettledBy(trace, id, ack, response, start, limit, k)
    requires SettlesWith(trace[k].received, id, result)
    ensures Receive(trace, id, ack, response, start, limit) == Outcome(result, Later(start, trace[k].at))
  {
    if SettledEarly(trace, id, ack, start, k) {
      FirstPhaseDecides(trace, id, start + ack, start, response, limit, k, result);
    } else {
      var a :| SettledAfter(trace, id, ack, response, start, a, k) && Later(start, trace[a].at) + response <= limit;
      SettledAfterDecides(trace, id, ack, response, start, limit, a, k, result);
    }
  }

  /** What a settled wait can return. */
  predicate IsAnswer(result: Result<Payload>) {
    result.Ok? || result.error in {RequestFailed, SessionClosed, ResponseChannelClosed}
  }

  /** Only one item ends the first phase. */
  lemma FirstPhaseEndsOnce(trace: seq<Arrival>, id: string, now: nat, deadline: nat, j: int, k: int)
    requires FirstPhase(trace, id, now, deadline, j) && FirstPhase(trace, id, now, deadline, k)
    requires Settling(trace[j].received, id) || IsAck(trace[j].received, id)
    requires Settling(trace[k].received, id) || IsAck(trace[k].received, id)
    ensures j == k
  {
  }

  /** When nothing settles the wait and nothing acknowledges, it times out. */
  lemma UnansweredEnds(trace: seq<Arrival>, id: string, ack: nat, response: nat, start: nat, limit: nat)
    requires Ordered(trace) && start + ack <= limit
    requires forall k :: !SettledBy(trace, id, ack, response, start, limit, k)
    requires forall a :: !AcknowledgedBy(trace, id, ack, start, a)
    ensures Receive(trace, id, ack, response, start, limit) == Outcome(Err(RequestTimeout(false)), start + ack)
  {
    forall k | FirstPhase(trace, id, start, start + ack, k)
      ensures !Settling(trace[k].received, id) && !IsAck(trace[k].received, id)
    {
      assert !AcknowledgedBy(trace, id, ack, start, k) && !SettledBy(trace, id, ack, response, start, limit, k);
    }
    FirstPhaseTimesOut(trace, id, start + ack, start, response, limit);
  }

  lemma NothingSettlesAfter(trace: seq<Arrival>, id: string, ack: nat, response: nat, start: nat, limit: nat, a: nat, k: int)
    requires start + ack <= limit && AcknowledgedBy(trace, id, ack, start, a)
    requires var t := Later(start, trace[a].at);
             t + response <= limit && SecondPhase(trace[a + 1..], id, t, t + response, k)
    requires !SettledBy(trace, id, ack, response, start, limit, a + 1 + k)
    ensures !Settling(trace[a + 1..][k].received, id)
  {
    assert trace[a + 1..][k] == trace[a + 1 + k];
    assert Settling(trace[a + 1 + k].received, id) ==> SettledAfter(trace, id, ack, response, start, a, a + 1 + k);
  }

  /** An acknowledgement in time hands over to the second phase. */
  lemma AcknowledgedGoesOn(trace: seq<Arrival>, id: string, ack: nat, response: nat, start: nat, limit: nat, a: nat)
    requires Ordered(trace) && start + ack <= limit && AcknowledgedBy(trace, id, ack, start, a)
    ensures var t := Later(start, trace[a].at);
            Receive(trace, id, ack, response, start, limit)
            == if t + response > limit then Outcome(Err(InvalidRequestTimeout), t)
               else Wait(trace[a + 1..], id, true, t + response, t, response, limit)
  {
    FirstPhaseGoesOn(trace, id, start + ack, start, response, limit, a);
  }

  lemma OrderedAfter(trace: seq<Arrival>, a: nat)
    requires Ordered(trace) && a <= |trace|
    ensures Ordered(trace[a..])
  {
  }

  /** When nothing settles it after an acknowledgement, that one's deadline ends it. */
  lemma AcknowledgedEnds(trace: seq<Arrival>, id: string, ack: nat, response: nat, start: nat, limit: nat, a: nat)
    requires Ordered(trace) && start + ack <= limit
    requires forall k :: !SettledBy(trace, id, ack, response, start, limit, k)
    requires AcknowledgedBy(trace, id, ack, start, a)
    ensures var t := Later(start, trace[a].at);
            Receive(trace, id, ack, response, start, limit)
            == if t + response > limit then Outcome(Err(InvalidRequestTimeout), t)
               else Outcome(Err(RequestTimeout(true)), t + response)
  {
    var t, rest := Later(start, trace[a].at), trace[a + 1..];
    AcknowledgedGoesOn(trace, id, ack, response, start, limit, a);
    OrderedAfter(trace, a + 1);
    if t + response <= limit {
      forall k | SecondPhase(rest, id, t, t + response, k) ensures !Settling(rest[k].received, id) {
        NothingSettlesAfter(trace, id, ack, response, start, limit, a, k);
      }
      SecondPhaseTimesOut(rest, id, t + response, t, response, limit);
    }
  }

  /** What settles the wait can be told apart: there is exactly one result for it. */
  lemma SettlesWithOne(trace: seq<Arrival>, id: string, ack: nat, response: nat, start: nat, limit: nat, k: nat)
    requires SettledBy(trace, id, ack, response, start, limit, k)
    ensures k < |trace| && exists result :: IsAnswer(result) && SettlesWith(trace[k].received, id, result)
  {
    var r := trace[k].received;
    assert Settling(r, id);
    MeaningOf(id, r);
    assert SettlesWith(r, id, Classify(id, r).result);
  }

  /** Each result of a wait, exactly: an answer when an item of the trace settles the
      request with it, in time and before any other; a timeout that says whether the
      request was acknowledged when none does; and an invalid timeout when a deadline
      cannot be represented. */
  lemma ResultExactly(trace: seq<Arrival>, id: string, ack: nat, response: nat, start: nat, limit: nat)
    requires Ordered(trace)
    ensures forall result :: IsAnswer(result) ==>
              (Receive(trace, id, ack, response, start, limit).result == result
               <==> exists k :: SettledBy(trace, id, ack, response, start, limit, k) && SettlesWith(trace[k].received, id, result))
    ensures Receive(trace, id, ack, response, start, limit).result == Err(RequestTimeout(false))
       <==> && start + ack <= limit && (forall k :: !SettledBy(trace, id, ack, response, start, limit, k))
            && forall a :: !AcknowledgedBy(trace, id, ack, start, a)
    ensures Receive(trace, id, ack, response, start, limit).result == Err(RequestTimeout(true))
       <==> && start + ack <= limit && (forall k :: !SettledBy(trace, id, ack, response, start, limit, k))
            && exists a :: AcknowledgedBy(trace, id, ack, start, a) && Later(start, trace[a].at) + response <= limit
    ensures Receive(trace, id, ack, response, start, limit).result == Err(InvalidRequestTimeout)
       <==> || start + ack > limit
            || exists a :: AcknowledgedBy(trace, id, ack, start, a) && Later(start, trace[a].at) + response > limit
  {
    var got := Receive(trace, id, ack, response, start, limit).result;
    if k :| SettledBy(trace, id, ack, response, start, limit, k) {
      SettlesWithOne(trace, id, ack, response, start, limit, k);
      var result :| IsAnswer(result) && SettlesWith(trace[k].received, id, result);
      SettledByDecides(trace, id, ack, response, start, limit, k, result);
      AcknowledgedInTime(trace, id, ack, response, start, limit, k);
      forall j, other | SettledBy(trace, id, ack, response, start, limit, j) && SettlesWith(trace[j].received, id, other)
        ensures other == got
      {
        SettledByDecides(trace, id, ack, response, start, limit, j, other);
      }
    } else if start + ack <= limit {
      if a :| AcknowledgedBy(trace, id, ack, start, a) {
        AcknowledgedEnds(trace, id, ack, response, start, limit, a);
      } else {
        UnansweredEnds(trace, id, ack, response, start, limit);
      }
      forall a, b | AcknowledgedBy(trace, id, ack, start, a) && AcknowledgedBy(trace, id, ack, start, b) ensures a == b {
        FirstPhaseEndsOnce(trace, id, start, start + ack, a, b);
      }
    }
  }

  /** When an item settles the wait, no acknowledgement sets an invalid deadline. */
  lemma AcknowledgedInTime(trace: seq<Arrival>, id: string, ack: nat, response: nat, start: nat, limit: nat, k: nat)
    requires SettledBy(trace, id, ack, response, start, limit, k)
    ensures forall a :: AcknowledgedBy(trace, id, ack, start, a) ==> Later(start, trace[a].at) + response <= limit
  {
    forall a | AcknowledgedBy(trace, id, ack, start, a) ensures Later(start, trace[a].at) + response <= limit {
      if !SettledEarly(trace, id, ack, start, k) {
        var b :| SettledAfter(trace, id, ack, response, start, b, k) && Later(start, trace[b].at) + response <= limit;
        FirstPhaseEndsOnce(trace, id, start, start + ack, a, b);
      }
    }
  }
}
