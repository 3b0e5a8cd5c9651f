/** How ICE candidates are buffered until the remote description is known. */
module IceNegotiation {
  import opened Common

  type Candidate = string

  /** A negotiation message; `None` is a payload that does not parse. */
  datatype Negotiation =
    | Offer(parses: bool)
    | Answer(parses: bool)
    | CandidateMessage(payload: Option<Candidate>)
    | EndOfCandidates
    | OtherType

  /** What the peer connection answers while one message is handled. */
  datatype Environment = Environment(setsRemote: bool, answers: bool, adds: Candidate -> bool)

  /** The peer connection as the handler sees it: it exists, its remote
      description is set, and it was given these candidates with success. */
  datatype Transport = Transport(connected: bool, remoteSet: bool, applied: seq<Candidate>, pending: seq<Candidate>)

  const NEW_TRANSPORT := Transport(false, false, [], [])

  /** A new peer connection, if `built`; the buffer is as it was. */
  function SetUp(t: Transport, built: bool): Transport {
    if built then t.(connected := true, remoteSet := false, applied := []) else t
  }

  /** The candidates before the first that is refused. */
  function Accepted(candidates: seq<Candidate>, adds: Candidate -> bool): seq<Candidate> {
    if candidates == [] || !adds(candidates[0]) then []
    else [candidates[0]] + Accepted(candidates[1..], adds)
  }

  /** The buffer is emptied before its candidates are added, so those after a
      refused one are gone. */
  function Flush(t: Transport, adds: Candidate -> bool): (Transport, Result<()>) {
    var accepted := Accepted(t.pending, adds);
    (t.(applied := t.applied + accepted, pending := []),
     if |accepted| == |t.pending| then Ok(()) else Err(TransportError))
  }

  function Handle(t: Transport, m: Negotiation, env: Environment): (Transport, Result<()>) {
    if !t.connected then (t, Err(TransportError))
    else
      match m
      case Offer(parses) =>
        if !parses then (t, Err(Other))
        else if !env.setsRemote then (t, Err(TransportError))
        else
          var (flushed, result) := Flush(t.(remoteSet := true), env.adds);
          (flushed, if result.Err? || env.answers then result else Err(TransportError))
      case Answer(parses) =>
        if !parses then (t, Err(Other))
        else if !env.setsRemote then (t, Err(TransportError))
        else Flush(t.(remoteSet := true), env.adds)
      case CandidateMessage(payload) =>
        if payload.None? then (t, Err(Other))
        else if !t.remoteSet then (t.(pending := t.pending + [payload.value]), Ok(()))
        else if env.adds(payload.value) then (t.(applied := t.applied + [payload.value]), Ok(()))
        else (t, Err(TransportError))
      case EndOfCandidates => (t, Ok(()))
      case OtherType => (t, Ok(()))
  }

  lemma {:induction false} AcceptedAll(candidates: seq<Candidate>, adds: Candidate -> bool)
    ensures |Accepted(candidates, adds)| <= |candidates|
    ensures |Accepted(candidates, adds)| == |candidates| ==> Accepted(candidates, adds) == candidates
    ensures (forall c :: c in candidates ==> adds(c)) ==> Accepted(candidates, adds) == candidates
    decreases |candidates|
  {
    if candidates != [] {
      AcceptedAll(candidates[1..], adds);
      assert candidates == [candidates[0]] + candidates[1..];
    }
  }

  /** The candidate that a handled message brings. */
  function Brings(t: Transport, m: Negotiation): seq<Candidate> {
    if t.connected && m.CandidateMessage? && m.payload.Some? then [m.payload.value] else []
  }

  /** Whether handling the message loses a candidate to a refused add. */
  predicate Refuses(t: Transport, m: Negotiation, env: Environment) {
    t.connected &&
    match m
    case Offer(parses) => parses && env.setsRemote && exists c :: c in t.pending && !env.adds(c)
    case Answer(parses) => parses && env.setsRemote && exists c :: c in t.pending && !env.adds(c)
    case CandidateMessage(payload) => payload.Some? && t.remoteSet && !env.adds(payload.value)
    case _ => false
  }

  /** A history of the transport: the candidates received while connected, and
      whether an add was ever refused. */
  datatype History = History(transport: Transport, received: seq<Candidate>, refused: bool)

  predicate Inv(h: History) {
    var t := h.transport;
    && (t.applied != [] ==> t.remoteSet)
    && (t.remoteSet ==> t.pending == [])
    && (h.refused ==> |t.applied + t.pending| < |h.received|)
    && (!h.refused ==> t.applied + t.pending == h.received)
  }

  function Handled(h: History, m: Negotiation, env: Environment): History {
    History(Handle(h.transport, m, env).0,
            h.received + Brings(h.transport, m),
            h.refused || Refuses(h.transport, m, env))
  }

  /** Flushing, once the remote description is set. */
  lemma FlushKeepsInv(h: History, adds: Candidate -> bool)
    requires Inv(h)
    ensures var t := h.transport.(remoteSet := true);
            Inv(History(Flush(t, adds).0, h.received, h.refused || exists c :: c in t.pending && !adds(c)))
  {
    var t := h.transport;
    AcceptedAll(t.pending, adds);
    RefusedIsShorter(t.pending, adds);
    assert (t.applied + Accepted(t.pending, adds)) + [] == t.applied + Accepted(t.pending, adds);
  }

  lemma DescriptionKeepsInv(h: History, m: Negotiation, env: Environment)
    requires Inv(h) && (m.Offer? || m.Answer?)
    ensures Inv(Handled(h, m, env))
  {
    FlushKeepsInv(h, env.adds);
    assert h.received + [] == h.received;
  }

  lemma CandidateKeepsInv(h: History, candidate: Candidate, env: Environment)
    requires Inv(h)
    ensures Inv(Handled(h, CandidateMessage(Some(candidate)), env))
  {
    var t := h.transport;
    assert t.applied + (t.pending + [candidate]) == (t.applied + t.pending) + [candidate];
    assert t.pending == [] ==> (t.applied + [candidate]) + [] == (t.applied + t.pending) + [candidate];
  }

  lemma HandledKeepsInv(h: History, m: Negotiation, env: Environment)
    requires Inv(h)
    ensures Inv(Handled(h, m, env))
  {
    if m.Offer? || m.Answer? {
      DescriptionKeepsInv(h, m, env);
    } else if m.CandidateMessage? && m.payload.Some? {
      CandidateKeepsInv(h, m.payload.value, env);
    } else {
      assert h.received + [] == h.received;
    }
  }

  lemma {:induction false} RefusedIsShorter(candidates: seq<Candidate>, adds: Candidate -> bool)
    ensures (exists c :: c in candidates && !adds(c)) ==> |Accepted(candidates, adds)| < |candidates|
    decreases |candidates|
  {
    if candidates != [] && adds(candidates[0]) {
      RefusedIsShorter(candidates[1..], adds);
    }
  }

  function HandledAll(h: History, messages: seq<(Negotiation, Environment)>): History {
    if messages == [] then h
    else
      var last := messages[|messages| - 1];
      Handled(HandledAll(h, messages[..|messages| - 1]), last.0, last.1)
  }

  const CONNECTED := History(SetUp(NEW_TRANSPORT, true), [], false)

  lemma {:induction false} HistoryInvariant(messages: seq<(Negotiation, Environment)>)
    ensures Inv(HandledAll(CONNECTED, messages))
    decreases |messages|
  {
    if messages != [] {
      HistoryInvariant(messages[..|messages| - 1]);
      var last := messages[|messages| - 1];
      HandledKeepsInv(HandledAll(CONNECTED, messages[..|messages| - 1]), last.0, last.1);
    }
  }

  /** Over any messages handled by one peer connection: applied candidates
      followed by buffered ones are the candidates received, in order, if and
      only if no add was refused; none is applied before the remote description,
      and none stays buffered after it. */
  lemma CandidateBuffering(messages: seq<(Negotiation, Environment)>)
    ensures var h := HandledAll(CONNECTED, messages);
            && (h.transport.applied + h.transport.pending == h.received <==> !h.refused)
            && (h.transport.applied != [] ==> h.transport.remoteSet)
            && (h.transport.remoteSet ==> h.transport.pending == [])
  {
    HistoryInvariant(messages);
  }

  // ----- what each message does, and when it succeeds

  /** What is accepted is a prefix in which every add succeeded, and what stopped it was refused. */
  lemma {:induction false} AcceptedIsPrefix(candidates: seq<Candidate>, adds: Candidate -> bool)
    ensures var accepted := Accepted(candidates, adds);
            && accepted <= candidates && (forall c :: c in accepted ==> adds(c))
            && (|accepted| < |candidates| ==> !adds(candidates[|accepted|]))
    decreases |candidates|
  {
    if candidates != [] && adds(candidates[0]) {
      AcceptedIsPrefix(candidates[1..], adds);
      assert candidates == [candidates[0]] + candidates[1..];
    }
  }

  predicate IsDescription(m: Negotiation) {
    (m.Offer? && m.parses) || (m.Answer? && m.parses)
  }

  /** A description is set exactly by a connection that accepts it; then the buffer is
      emptied, and what was in it is applied in order up to the first refused one. */
  lemma DescriptionTakesEffect(t: Transport, m: Negotiation, env: Environment)
    requires m.Offer? || m.Answer?
    ensures var (t', result) := Handle(t, m, env);
            var takes := t.connected && IsDescription(m) && env.setsRemote;
            && (!takes ==> t' == t && result.Err?)
            && (takes ==>
                  && t'.connected && t'.remoteSet && t'.pending == []
                  && t.applied <= t'.applied && t'.applied[|t.applied|..] <= t.pending
                  && (forall c :: c in t'.applied[|t.applied|..] ==> env.adds(c))
                  && (|t'.applied| < |t.applied| + |t.pending| ==> !env.adds(t.pending[|t'.applied| - |t.applied|])))
            && (result.Ok? <==> takes && |t'.applied| == |t.applied| + |t.pending| && (m.Offer? ==> env.answers))
  {
    AcceptedIsPrefix(t.pending, env.adds);
    var t' := Handle(t, m, env).0;
    if t.connected && IsDescription(m) && env.setsRemote {
      assert t'.applied[|t.applied|..] == Accepted(t.pending, env.adds);
    }
  }

  /** A candidate is refused by a layer without a connection, buffered before the remote
      description, and applied or refused after it. Other messages change nothing. */
  lemma CandidateTakesEffect(t: Transport, m: Negotiation, env: Environment)
    requires !m.Offer? && !m.Answer?
    ensures var (t', result) := Handle(t, m, env);
            match m
            case CandidateMessage(Some(c)) =>
              if !t.connected then t' == t && result.Err?
              else if !t.remoteSet then t' == t.(pending := t.pending + [c]) && result.Ok?
              else if env.adds(c) then t' == t.(applied := t.applied + [c]) && result.Ok?
              else t' == t && result.Err?
            case CandidateMessage(None) => t' == t && result.Err?
            case _ => t' == t && (result.Ok? <==> t.connected)
  {
  }

  /** Over every history of one connection: the remote description is set exactly when
      some description was accepted, and from then on nothing is buffered again. */
  lemma {:induction false} RemoteIsSetExactly(messages: seq<(Negotiation, Environment)>)
    ensures var h := HandledAll(CONNECTED, messages);
            && h.transport.connected
            && (h.transport.remoteSet <==> exists k :: Describes(messages, k))
            && (h.transport.remoteSet ==> h.transport.pending == [])
    decreases |messages|
  {
    if messages != [] {
      var shorter, last := messages[..|messages| - 1], messages[|messages| - 1];
      RemoteIsSetExactly(shorter);
      var t := HandledAll(CONNECTED, shorter).transport;
      if last.0.Offer? || last.0.Answer? {
        DescriptionTakesEffect(t, last.0, last.1);
      } else {
        CandidateTakesEffect(t, last.0, last.1);
      }
      assert forall k :: 0 <= k < |shorter| ==> (Describes(messages, k) <==> Describes(shorter, k));
      if k :| Describes(messages, k) {
        assert k == |shorter| || Describes(shorter, k);
      }
      if Describes(messages, |shorter|) {
        assert HandledAll(CONNECTED, messages).transport.remoteSet;
      }
      if k :| Describes(shorter, k) {
        assert Describes(messages, k);
      }
    }
  }

  predicate Describes(messages: seq<(Negotiation, Environment)>, k: int) {
    0 <= k < |messages| && IsDescription(messages[k].0) && messages[k].1.setsRemote
  }

  /** A new connection starts afresh, whatever came before, but for what is buffered. */
  lemma SetUpStartsAfresh(t: Transport, built: bool)
    ensures var t' := SetUp(t, built);
            && (built ==> t'.connected && !t'.remoteSet && t'.applied == [])
            && t'.pending == t.pending && (!built ==> t' == t)
  {
  }

  // ----- the whole life of the layer, with what came before `SetUp`

  /** The candidate that a message carries, handled or not. */
  function Carries(m: Negotiation): seq<Candidate> {
    if m.CandidateMessage? && m.payload.Some? then [m.payload.value] else []
  }

  function Sent(messages: seq<(Negotiation, Environment)>): seq<Candidate> {
    if messages == [] then []
    else Sent(messages[..|messages| - 1]) + Carries(messages[|messages| - 1].0)
  }

  lemma {:induction false} EarlyMessagesAreRefused(messages: seq<(Negotiation, Environment)>)
    ensures HandledAll(History(NEW_TRANSPORT, [], false), messages) == History(NEW_TRANSPORT, [], false)
    decreases |messages|
  {
    if messages != [] {
      EarlyMessagesAreRefused(messages[..|messages| - 1]);
    }
  }

  lemma {:induction false} LaterMessagesAreReceived(messages: seq<(Negotiation, Environment)>)
    ensures HandledAll(CONNECTED, messages).received == Sent(messages)
    ensures HandledAll(CONNECTED, messages).transport.connected
    decreases |messages|
  {
    if messages != [] {
      LaterMessagesAreReceived(messages[..|messages| - 1]);
    }
  }

  /** Over all messages to the layer, before and after its one successful `SetUp`:
      applied candidates followed by buffered ones are everything that was sent, in
      order, if and only if none was sent before `SetUp` and no add was refused. */
  lemma NothingLostExactly(before: seq<(Negotiation, Environment)>, after: seq<(Negotiation, Environment)>)
    ensures var early := HandledAll(History(NEW_TRANSPORT, [], false), before);
            var h := HandledAll(History(SetUp(early.transport, true), [], false), after);
            h.transport.applied + h.transport.pending == Sent(before) + Sent(after)
            <==> Sent(before) == [] && !h.refused
  {
    EarlyMessagesAreRefused(before);
    HistoryInvariant(after);
    LaterMessagesAreReceived(after);
    KeptExactly(HandledAll(CONNECTED, after), Sent(before), Sent(after));
  }

  /** Comparing what is kept with what was lost before and received since. */
  lemma KeptExactly(h: History, lost: seq<Candidate>, received: seq<Candidate>)
    requires Inv(h) && h.received == received
    ensures h.transport.applied + h.transport.pending == lost + received <==> lost == [] && !h.refused
  {
    if lost == [] {
      assert lost + received == received;
    } else {
      assert |lost + received| > |received|;
    }
  }
}

/** The same handler as the object whose fields it changes in place. */
module TransportLayer {
  import opened Common
  import opened IceNegotiation

  class TransportLayer {
    var connected: bool
    var remoteSet: bool
    var applied: seq<Candidate>
    var pendingCandidates: seq<Candidate>

    constructor ()
      ensures View() == NEW_TRANSPORT
    {
      connected, remoteSet, applied, pendingCandidates := false, false, [], [];
    }

    function View(): Transport
      reads this
    {
      Transport(connected, remoteSet, applied, pendingCandidates)
    }

    /** `built` says whether the peer connection could be built and started. */
    method SetUp(built: bool) returns (result: Result<()>)
      modifies this`connected, this`remoteSet, this`applied
      ensures View() == IceNegotiation.SetUp(old(View()), built) && result.Ok? == built
    {
      if !built {
        return Err(TransportError);
      }
      connected, remoteSet, applied := true, false, [];
      return Ok(());
    }

    method FlushPendingCandidates(adds: Candidate -> bool) returns (result: Result<()>)
      modifies this`applied, this`pendingCandidates
      ensures (View(), result) == Flush(old(View()), adds)
    {
      var candidates := pendingCandidates;
      pendingCandidates := [];
      for i := 0 to |candidates|
        invariant pendingCandidates == [] && connected == old(connected) && remoteSet == old(remoteSet)
        invariant applied == old(applied) + candidates[..i]
        invariant Accepted(candidates, adds) == candidates[..i] + Accepted(candidates[i..], adds)
      {
        if !adds(candidates[i]) {
          assert Accepted(candidates, adds) == candidates[..i];
          return Err(TransportError);
        }
        applied := applied + [candidates[i]];
        assert candidates[i..][1..] == candidates[i + 1..];
      }
      assert candidates[..|candidates|] == candidates && candidates[|candidates|..] == [];
      assert Accepted(candidates, adds) == candidates;
      return Ok(());
    }

    method Handle(m: Negotiation, env: Environment) returns (result: Result<()>)
      modifies this
      ensures (View(), result) == IceNegotiation.Handle(old(View()), m, env)
    {
      if !connected {
        return Err(TransportError);
      }
      match m {
        case Offer(parses) =>
          if !parses {
            return Err(Other);
          }
          if !env.setsRemote {
            return Err(TransportError);
          }
          remoteSet := true;
          result := FlushPendingCandidates(env.adds);
          if result.Err? {
            return;
          }
          if !env.answers {
            return Err(TransportError);
          }
        case Answer(parses) =>
          if !parses {
            return Err(Other);
          }
          if !env.setsRemote {
            return Err(TransportError);
          }
          remoteSet := true;
          result := FlushPendingCandidates(env.adds);
        case CandidateMessage(payload) =>
          if payload.None? {
            return Err(Other);
          }
          if !remoteSet {
            pendingCandidates := pendingCandidates + [payload.value];
            return Ok(());
          }
          if !env.adds(payload.value) {
            return Err(TransportError);
          }
          applied := applied + [payload.value];
          return Ok(());
        case EndOfCandidates => return Ok(());
        case OtherType => return Ok(());
      }
    }
  }
}
