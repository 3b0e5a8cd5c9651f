/** What one received session message, signaling state or transport state does to a session. */
module SessionSteps {
  import opened Common
  import opened Response
  import opened SessionStates
  import opened Admission
  import opened TransportChoice
  import S = Signaling
  import L = LinkLoops
  import E = Exchange

  const TRANSPORT_FAILED := "peer-to-peer transport failed"
  const NO_COMMON_TRANSPORT := "no common transport with peer"
  const TRANSPORT_SETUP_FAILED := "transport setup failed"
  const SIGNALING_FAILED := "signaling failed or timed out"

  /** The locked fields of a session and the logs of its broadcast channels. */
  datatype Session = Session(
    status: SessionState,
    error: Option<string>,
    peerClosed: bool,
    responses: seq<SessionMessage>,
    observed: seq<Payload>,
    statuses: seq<SessionState>)

  function SetStatus(s: Session, status: SessionState): Session {
    s.(status := status, statuses := s.statuses + [status])
  }

  /** The branch of `handle_session_frame` for the peer's close. */
  function PeerCloses(s: Session): Session {
    SetStatus(s.(peerClosed := true, error := None, responses := s.responses + [Close]), Disconnected)
  }

  /** The flag is read first and the error written afterwards; `closing` says that
      another task handles the peer's close in between. */
  function SetTransportError(s: Session, closing: bool): Session {
    var later := if closing then PeerCloses(s) else s;
    if s.peerClosed then later else later.(error := Some(TRANSPORT_FAILED))
  }

  /** `dispatch_request`. Admission and spawn take the lock one after the other;
      `closing` says that another thread closes the session in between. */
  function Dispatch(s: Session, c: Control, payload: Payload, closing: bool): (Session, Control, Result<()>) {
    var (c1, permit) := AdmitHandler(c);
    if permit.Err? then (s, c, Err(permit.error))
    else
      var (c2, handle) := Spawn(if closing then Admission.Close(c1) else c1, true);
      if handle.Err? then (s.(observed := s.observed + [payload]), ReleasePermit(c2), Err(handle.error))
      else (s.(observed := s.observed + [payload]), c2, Ok(()))
  }

  function HandleFrame(s: Session, c: Control, m: SessionMessage, closing: bool): (Session, Control, Result<()>) {
    match m
    case Request(_, payload) => Dispatch(s, c, payload, closing)
    case Close => (PeerCloses(s), c, Ok(()))
    case Unknown => (s, c, Ok(()))
    case _ => (s.(responses := s.responses + [m]), c, Ok(()))
  }

  /** The reaction to a signaling state; `setsUp` is the outcome of the transport's setup. */
  function HandleSignalState(s: Session, state: S.SignalState, commonTransport: bool, setsUp: bool): Session {
    match state
    case Ready => SetStatus(s, SessionState.Ready)
    case Handshake => SetStatus(s, Linking)
    case HandshakePartial => SetStatus(s, Linking)
    case Encrypted =>
      if !commonTransport then SetStatus(s.(error := Some(NO_COMMON_TRANSPORT)), Disconnected)
      else if !setsUp then SetStatus(s.(error := Some(TRANSPORT_SETUP_FAILED)), Disconnected)
      else s
    case Error => SetStatus(s.(error := Some(SIGNALING_FAILED)), Disconnected)
    case _ => s
  }

  function HandleTransportState(s: Session, state: L.TransportState, closing: bool): Session {
    match state
    case TransportConnected => SetStatus(s, Connected)
    case TransportFailed => SetStatus(SetTransportError(s, closing), Disconnected)
    case _ => s
  }

  // ----- waiting for the link

  /** What the transport's state receiver yields to a waiter. */
  datatype LinkItem = StateItem(state: L.TransportState) | ChannelClosed | Lagged

  /** An item, and whether the transport was connected when it was looked at. */
  datatype Moment = Moment(item: LinkItem, connected: bool)

  predicate ShowsConnected(m: Moment) {
    m.item == StateItem(L.TransportConnected) || (m.connected && m.item != StateItem(L.TransportFailed))
  }

  predicate EndsWait(m: Moment) {
    ShowsConnected(m) || m.item == ChannelClosed || m.item == StateItem(L.TransportFailed)
  }

  function FirstEnd(trace: seq<Moment>): (first: Option<nat>)
    ensures match first
            case Some(k) => k < |trace| && EndsWait(trace[k]) && forall i :: 0 <= i < k ==> !EndsWait(trace[i])
            case None => forall i :: 0 <= i < |trace| ==> !EndsWait(trace[i])
  {
    if trace == [] then None
    else if EndsWait(trace[0]) then Some(0)
    else
      var rest := FirstEnd(trace[1..]);
      assert rest.None? ==> forall i :: 0 < i < |trace| ==> trace[i] == trace[1..][i - 1];
      if rest.Some? then Some(rest.value + 1) else None
  }

  /** `wait_for_link` on what its receiver yields; no result means that it still waits. */
  function WaitForLink(s: Session, connected: bool, trace: seq<Moment>, closing: bool): (Session, Option<Result<()>>) {
    if s.status == Connected then (s, Some(Ok(())))
    else if s.status == Disconnected then (s, Some(Err(SessionError)))
    else if connected then (SetStatus(s, Connected), Some(Ok(())))
    else
      match FirstEnd(trace)
      case None => (s, None)
      case Some(k) =>
        if ShowsConnected(trace[k]) then (SetStatus(s, Connected), Some(Ok(())))
        else if trace[k].item == ChannelClosed then (s, Some(Err(SessionError)))
        else (SetStatus(SetTransportError(s, closing), Disconnected), Some(Err(SessionError)))
  }

  /** A call of `wait_for_link` that returns does so with `Ok` exactly when the status
      it leaves is `Connected`, and with an error otherwise; a failure of the transport
      leaves `Disconnected`. While it waits it changes nothing. */
  lemma WaitTellsStatus(s: Session, connected: bool, trace: seq<Moment>, closing: bool)
    ensures var (s', result) := WaitForLink(s, connected, trace, closing);
            && (result.None? ==> s' == s)
            && (result.Some? ==> (result.value.Ok? <==> s'.status == Connected) && (result.value.Err? ==> result.value.error == SessionError))
            && (result.Some? && s'.status != s.status ==> Linked(s'.status))
  {
  }

  predicate Linked(status: SessionState) {
    status == Connected || status == Disconnected
  }

  /** The three results of a wait that has to listen: the first item that ends it says which. */
  lemma WaitTellsFirstEnd(s: Session, trace: seq<Moment>, closing: bool, k: nat)
    requires !Linked(s.status) && k < |trace| && EndsWait(trace[k]) && forall i :: 0 <= i < k ==> !EndsWait(trace[i])
    ensures var (s', result) := WaitForLink(s, false, trace, closing);
            && (ShowsConnected(trace[k]) ==> result == Some(Ok(())) && s'.status == Connected)
            && (trace[k].item == StateItem(L.TransportFailed) ==> result == Some(Err(SessionError)) && s'.status == Disconnected)
            && (trace[k].item == ChannelClosed && !trace[k].connected ==> result == Some(Err(SessionError)) && s' == s)
  {
    assert FirstEnd(trace) == Some(k);
  }

  // ----- what every reaction has in common

  /** The status is the one that was broadcast last. */
  predicate StatusIsBroadcast(s: Session) {
    s.status == if s.statuses == [] then Created else s.statuses[|s.statuses| - 1]
  }

  lemma SetStatusIsBroadcast(s: Session, status: SessionState)
    ensures StatusIsBroadcast(SetStatus(s, status))
  {
  }

  /** Every change of status is broadcast, by every reaction to a frame or a signaling state. */
  lemma EveryStatusIsBroadcast(s: Session, c: Control, m: SessionMessage, signal: S.SignalState,
                               commonTransport: bool, setsUp: bool, closing: bool)
    requires StatusIsBroadcast(s)
    ensures StatusIsBroadcast(HandleFrame(s, c, m, closing).0)
    ensures StatusIsBroadcast(HandleSignalState(s, signal, commonTransport, setsUp))
  {
    SetStatusIsBroadcast(s, Disconnected);
  }

  /** And by every reaction to a transport state, and every wait. */
  lemma EveryLinkIsBroadcast(s: Session, transport: L.TransportState, connected: bool, closing: bool, trace: seq<Moment>)
    requires StatusIsBroadcast(s)
    ensures StatusIsBroadcast(HandleTransportState(s, transport, closing))
    ensures StatusIsBroadcast(WaitForLink(s, connected, trace, closing).0)
  {
    SetStatusIsBroadcast(SetTransportError(s, closing), Disconnected);
    SetStatusIsBroadcast(s, Connected);
  }

  /** A disconnection tells why: the error names its cause, unless the peer had closed. */
  lemma DisconnectionTellsWhy(s: Session, signal: S.SignalState, transport: L.TransportState, commonTransport: bool, setsUp: bool)
    requires s.status != Disconnected && s.error == None
    ensures var s' := HandleSignalState(s, signal, commonTransport, setsUp);
            && (s'.status == Disconnected <==> s'.error.Some?)
            && (s'.error == Some("signaling failed or timed out") <==> signal == S.Error)
            && (s'.error == Some("no common transport with peer") <==> signal == S.Encrypted && !commonTransport)
            && (s'.error == Some("transport setup failed") <==> signal == S.Encrypted && commonTransport && !setsUp)
    ensures var s' := HandleTransportState(s, transport, false);
            && (s'.status == Disconnected <==> transport == L.TransportFailed)
            && (s'.error == Some("peer-to-peer transport failed") <==> transport == L.TransportFailed && !s.peerClosed)
            && (s'.error.Some? ==> s'.status == Disconnected)
  {
    assert "signaling failed or timed out"[0] == 's' && "no common transport with peer"[0] == 'n' && "transport setup failed"[0] == 't';
  }

  /** The peer's close is spread to open calls and observed as a disconnection without an error. */
  lemma PeerCloseIsSeen(s: Session, c: Control, closing: bool)
    ensures var s' := HandleFrame(s, c, Close, closing).0;
            && s'.status == Disconnected && s'.error == None && s'.peerClosed
            && s'.responses == s.responses + [Close] && s'.statuses == s.statuses + [Disconnected]
            && s'.observed == s.observed
  {
  }

  /** The statuses that the transport's states and the peer's close write are those of the status model. */
  lemma TransportMatchesStatusModel(s: Session, w: L.World, closing: bool)
    requires s.status == w.status && w.transportLoop.TransportHandling?
    ensures var state := w.transportLoop.observed;
            HandleTransportState(s, state, closing).status == L.Perform(w, L.TransportLoopHandles).status
    ensures PeerCloses(s).status == L.Perform(w, L.Closes).status
    ensures w.seenConnected > 0 ==> SetStatus(s, Connected).status == L.Perform(w, L.WaiterWrites).status
  {
  }

  /** A frame is refused exactly when it asks for a handler that may not start.
      The handler count then is what it was, and no task was added; otherwise it
      has grown by the one permit of the new handler. */
  lemma RefusedFrameTakesNoPermit(s: Session, c: Control, m: SessionMessage, closing: bool)
    ensures var (s', c', result) := HandleFrame(s, c, m, closing);
            && (result.Err? <==> m.Request? && (c.closed || c.activeHandlers >= MAX_ACTIVE_HANDLERS || closing))
            && (result.Err? ==>
                  && c'.activeHandlers == c.activeHandlers && c'.tasks.Keys == c.tasks.Keys
                  && s'.(observed := s.observed) == s)
            && (result.Ok? && m.Request? ==>
                  && c'.activeHandlers == c.activeHandlers + 1 <= MAX_ACTIVE_HANDLERS
                  && c.nextTask in c'.tasks && c'.tasks[c.nextTask] == Task(true, false, true))
            && (!m.Request? ==> c' == c)
  {
  }

  /** A payload is shown to observers exactly when its request is admitted, so also
      when the spawn is then refused: that is exactly when a close comes in between. */
  lemma ObservedPayloads(s: Session, c: Control, m: SessionMessage, closing: bool)
    ensures var (s', _, result) := HandleFrame(s, c, m, closing);
            var admitted := m.Request? && !c.closed && c.activeHandlers < MAX_ACTIVE_HANDLERS;
            && s'.observed == (if admitted then s.observed + [m.payload] else s.observed)
            && (s'.observed != s.observed && result.Err? <==> admitted && closing)
  {
  }

  /** A request that is refused, but shown. */
  lemma RefusedPayloadIsShown(s: Session)
    ensures HandleFrame(s, NEW_CONTROL, Request("r", "v"), true)
            == (s.(observed := s.observed + ["v"]), Admission.Close(NEW_CONTROL), Err(SessionClosed))
  {
    assert AbortAll(map[]) == map[];
  }

  /** What a frame does to open calls and handlers is what the exchange model says
      of a frame that is admitted, unless a close comes in between: it has a new
      handler exactly when a new task with a permit was spawned. */
  lemma FrameMatchesExchange(s: Session, c: Control, m: SessionMessage, closing: bool, side: E.Side)
    requires side.heard == s.responses && c.nextTask !in c.tasks
    requires m.Request? ==> m.messageId !in side.handlers
    ensures var (s', c', _) := HandleFrame(s, c, m, closing);
            var side' := E.TakeMessage(side, m, AdmitHandler(c).1.Ok? && !closing);
            && side'.heard == s'.responses
            && (side'.handlers != side.handlers
                <==> c.nextTask in c'.tasks && c'.tasks[c.nextTask] == Task(true, false, true))
  {
    if m.Request? && AdmitHandler(c).1.Ok? && !closing {
      var side' := E.TakeMessage(side, m, true);
      assert m.messageId in side'.handlers;
    }
  }

  /** The status written for a signaling state is the one of the status model. */
  lemma SignalMatchesStatusModel(s: Session, w: L.World, state: S.SignalState, commonTransport: bool, setsUp: bool)
    requires s.status == w.status
    ensures var w' := L.HandleSignal(w, state, commonTransport);
            HandleSignalState(s, state, commonTransport, setsUp).status
            == if w'.signalLoop == L.InTransportSetup && !setsUp then Disconnected else w'.status
  {
  }

  datatype Event = FrameArrives(message: SessionMessage, closing: bool) | TransportMoves(state: L.TransportState, closing: bool)

  function HandleAll(s: Session, c: Control, events: seq<Event>): (Session, Control)
  {
    if events == [] then (s, c)
    else
      var (s1, c1) := HandleAll(s, c, events[..|events| - 1]);
      match events[|events| - 1]
      case FrameArrives(m, closing) => var (s2, c2, _) := HandleFrame(s1, c1, m, closing); (s2, c2)
      case TransportMoves(state, closing) => (HandleTransportState(s1, state, closing), c1)
  }

  /** Once the peer has closed, no frame or transport failure whose handling starts
      later is reported as an error. Those under way are the subject of `PeerClose`. */
  lemma {:induction false} PeerCloseIsNoError(s: Session, c: Control, events: seq<Event>)
    requires s.peerClosed && s.error == None
    ensures HandleAll(s, c, events).0.peerClosed && HandleAll(s, c, events).0.error == None
    decreases |events|
  {
    if events != [] {
      PeerCloseIsNoError(s, c, events[..|events| - 1]);
    }
  }
}

/** The same session as the object whose locked fields the event loops update. */
module SessionObject {
  import opened Common
  import opened Response
  import opened SessionStates
  import opened Admission
  import opened TransportChoice
  import opened SessionLock
  import S = Signaling
  import L = LinkLoops
  import Steps = SessionSteps

  class SessionInner {
    const isHost: bool
    const control: SessionControl
    var status: SessionState
    var error: Option<string>
    var peerClosed: bool
    var responseTx: seq<SessionMessage>
    var requestTx: seq<Payload>
    var stateTx: seq<SessionState>
    var closeResult: Option<Result<()>>
    var wire: seq<SessionMessage>
    var transportTeardowns: nat
    var signalingTeardowns: nat

    constructor (isHost: bool, control: SessionControl)
      ensures this.isHost == isHost && this.control == control
      ensures View() == Steps.Session(Created, None, false, [], [], [])
      ensures closeResult == None && Teardown() == ([], 0, 0)
    {
      this.isHost, this.control := isHost, control;
      status, error, peerClosed := Created, None, false;
      responseTx, requestTx, stateTx := [], [], [];
      closeResult, wire, transportTeardowns, signalingTeardowns := None, [], 0, 0;
    }

    function View(): Steps.Session
      reads this
    {
      Steps.Session(status, error, peerClosed, responseTx, requestTx, stateTx)
    }

    /** What closing has done: messages sent, and how often each layer was torn down. */
    function Teardown(): (seq<SessionMessage>, nat, nat)
      reads this
    {
      (wire, transportTeardowns, signalingTeardowns)
    }

    method SetStatus(newStatus: SessionState)
      modifies this`status, this`stateTx
      ensures View() == Steps.SetStatus(old(View()), newStatus)
    {
      status := newStatus;
      stateTx := stateTx + [newStatus];
    }

    method OnPeerClose()
      modifies this`status, this`error, this`peerClosed, this`responseTx, this`stateTx
      ensures View() == Steps.PeerCloses(old(View()))
    {
      peerClosed := true;
      error := None;
      responseTx := responseTx + [SessionMessage.Close];
      SetStatus(Disconnected);
    }

    method SetTransportError(closing: bool)
      modifies this`status, this`error, this`peerClosed, this`responseTx, this`stateTx
      ensures View() == Steps.SetTransportError(old(View()), closing)
    {
      var open := !peerClosed;
      if closing {
        OnPeerClose();
      }
      if open {
        error := Some(Steps.TRANSPORT_FAILED);
      }
    }

    method DispatchRequest(payload: Payload, closing: bool) returns (result: Result<()>)
      modifies this`requestTx, control
      ensures (View(), control.View(), result) == Steps.Dispatch(old(View()), old(control.View()), payload, closing)
    {
      var permit := control.AdmitHandler();
      if permit.Err? {
        return Err(permit.error);
      }
      requestTx := requestTx + [payload];
      if closing {
        control.Close();
      }
      var handle := control.Spawn(true);
      if handle.Err? {
        control.DropPermit();
        return Err(handle.error);
      }
      return Ok(());
    }

    method HandleSessionFrame(message: SessionMessage, closing: bool) returns (result: Result<()>)
      modifies this`status, this`error, this`peerClosed, this`responseTx, this`requestTx, this`stateTx, control
      ensures (View(), control.View(), result) == Steps.HandleFrame(old(View()), old(control.View()), message, closing)
    {
      result := Ok(());
      match message {
        case Request(_, payload) =>
          result := DispatchRequest(payload, closing);
        case Close =>
          OnPeerClose();
        case Unknown =>
        case _ =>
          responseTx := responseTx + [message];
      }
    }

    /** One pass of the signal state loop; `peer` are the transports the peer advertised. */
    method OnSignalState(state: S.SignalState, peer: Option<seq<string>>, setsUp: bool)
      modifies this`status, this`error, this`peerClosed, this`responseTx, this`stateTx
      ensures var common := peer.Some? && SelectTransportId(isHost, ["wrtc"], peer.value).Some?;
              View() == Steps.HandleSignalState(old(View()), state, common, setsUp)
    {
      match state {
        case Ready => SetStatus(SessionState.Ready);
        case Handshake => SetStatus(Linking);
        case HandshakePartial => SetStatus(Linking);
        case Encrypted =>
          var chosen: Option<string> := None;
          if peer.Some? {
            chosen := SelectTransportId(isHost, ["wrtc"], peer.value);
          }
          if chosen.None? {
            error := Some(Steps.NO_COMMON_TRANSPORT);
            SetStatus(Disconnected);
          } else if !setsUp {
            error := Some(Steps.TRANSPORT_SETUP_FAILED);
            SetStatus(Disconnected);
          }
        case Error =>
          error := Some(Steps.SIGNALING_FAILED);
          SetStatus(Disconnected);
        case _ =>
      }
    }

    /** One pass of the transport state loop; `ended` says that it returned. */
    method OnTransportState(state: L.TransportState, closing: bool) returns (ended: bool)
      modifies this`status, this`error, this`peerClosed, this`responseTx, this`stateTx
      ensures View() == Steps.HandleTransportState(old(View()), state, closing) && ended == state.TransportFailed?
    {
      match state {
        case TransportConnected => SetStatus(Connected);
        case TransportFailed =>
          SetTransportError(closing);
          SetStatus(Disconnected);
          return true;
        case _ =>
      }
      ended := false;
    }

    /** `connected` is the transport's state at the call, `trace` what its state
        receiver yields from then on. */
    method WaitForLink(connected: bool, trace: seq<Steps.Moment>, closing: bool) returns (result: Option<Result<()>>)
      modifies this`status, this`error, this`peerClosed, this`responseTx, this`stateTx
      ensures (View(), result) == Steps.WaitForLink(old(View()), connected, trace, closing)
    {
      match status {
        case Connected => return Some(Ok(()));
        case Disconnected => return Some(Err(SessionError));
        case _ =>
      }
      if connected {
        SetStatus(Connected);
        return Some(Ok(()));
      }
      for k := 0 to |trace|
        invariant View() == old(View())
        invariant forall i :: 0 <= i < k ==> !Steps.EndsWait(trace[i])
      {
        var now := trace[k].connected;
        match trace[k].item {
          case StateItem(TransportConnected) =>
            SetStatus(Connected);
            return Some(Ok(()));
          case StateItem(TransportFailed) =>
            SetTransportError(closing);
            SetStatus(Disconnected);
            return Some(Err(SessionError));
          case ChannelClosed =>
            if now {
              SetStatus(Connected);
              return Some(Ok(()));
            }
            return Some(Err(SessionError));
          case _ =>
            if now {
              SetStatus(Connected);
              return Some(Ok(()));
            }
        }
      }
      result := None;
    }

    /** `close` with nothing running beside it. The first call sends the close
        message, joins every task, tears both layers down and keeps the result, in
        which a transport error comes first; later calls return that result. */
    method Close(accepts: bool, transport: Result<()>, signaling: Result<()>) returns (result: Result<()>)
      modifies this, control
      ensures closeResult == Some(result)
      ensures old(closeResult).Some? ==>
                && result == old(closeResult).value && View() == old(View()) && Teardown() == old(Teardown())
                && control.View() == Admission.Close(old(control.View()))
      ensures old(closeResult).None? ==>
                && result == (if transport.Err? then transport else signaling)
                && View() == Steps.SetStatus(old(View()), Disconnected)
                && control.View() == Admission.Close(old(control.View())).(tasks := map[])
                && Teardown() == (old(wire) + (if accepts then [SessionMessage.Close] else []),
                                  old(transportTeardowns) + 1, old(signalingTeardowns) + 1)
    {
      control.Close();
      if closeResult.Some? {
        return closeResult.value;
      }
      if accepts {
        wire := wire + [SessionMessage.Close];
      }
      assert old(wire) + [] == old(wire);
      var joined := control.WaitForTasks();
      transportTeardowns := transportTeardowns + 1;
      signalingTeardowns := signalingTeardowns + 1;
      SetStatus(Disconnected);
      result := if transport.Err? then transport else signaling;
      closeResult := Some(result);
    }
  }
}
