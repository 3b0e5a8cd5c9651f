/**
 The signaling handshake of one end, as functions on values.

 Cryptography is symbolic: a sealed payload names the key it opens under. What
 the byte layouts guarantee is proved in `PeerCrypto`.
 */
module Signaling {
  import opened Common
  import opened Wire
  import Runs

  datatype SignalState = Standby | Connecting | Ready | Handshake | HandshakePartial | Encrypted | Error

  datatype PeerCapabilities = PeerCapabilities(transports: seq<string>, info: Option<string>)

  /** A decrypted signaling message. `Undecodable` stands for text that is no
      message, `Invalid` for one that fails validation, and `Pubkey(None)` for a
      public key text that does not parse to 32 bytes. */
  datatype Message =
    | Flash
    | Pubkey(announced: Option<Key>)
    | Capabilities(capabilities: PeerCapabilities)
    | Data(payload: Payload)
    | Undecodable
    | Invalid

  datatype Sealed =
    | Shared(secret: string, message: Message)
    | Peer(sender: Key, receiver: Key, message: Message)

  datatype Frame = Frame(prefix: WirePrefix, recipient: WireRecipient, sealed: Sealed)

  /** What an end is configured with, and what every other end knows `hash` to be. */
  datatype Properties = Properties(
    isHost: bool,
    h: string,
    hash: Key -> string,
    secret: Option<string>,
    key: Key,
    capabilities: PeerCapabilities)

  datatype Outgoing = Outgoing(prefix: WirePrefix, recipient: WireRecipient, message: Message)

  /** The locked fields of one end. `repeating` is what the task in
      `handshake_task` resends; `deadline` says whether `deadline_task` is set. */
  datatype End = End(
    state: SignalState,
    relyingKey: Option<Key>,
    peerCapabilities: Option<PeerCapabilities>,
    repeating: Option<Outgoing>,
    deadline: bool,
    broadcasts: seq<SignalState>,
    delivered: seq<Payload>)

  /** The end after a step, the frame the step published, and what it returned. */
  datatype Effect = Effect(end: End, sent: Option<Frame>, result: Result<()>)

  const NEW_END := End(Standby, None, None, None, false, [], [])

  predicate Terminal(s: SignalState) {
    s == Encrypted || s == Error
  }

  function StopHandshakeTasks(e: End): End {
    e.(repeating := None, deadline := false)
  }

  function SetState(e: End, s: SignalState): End {
    var e1 := e.(state := s, broadcasts := e.broadcasts + [s]);
    if Terminal(s) then StopHandshakeTasks(e1) else e1
  }

  function Seal(me: Properties, relyingKey: Option<Key>, o: Outgoing): Result<Frame> {
    match o.prefix
    case HandshakePrefix =>
      if me.secret.None? then Err(SignalingError)
      else Ok(Frame(HandshakePrefix, o.recipient, Shared(me.secret.value, o.message)))
    case EncryptedPrefix =>
      if relyingKey.None? then Err(SignalingError)
      else Ok(Frame(EncryptedPrefix, o.recipient, Peer(me.key, relyingKey.value, o.message)))
  }

  /** `published` says whether the channel accepted the frame. */
  function SendMessage(me: Properties, e: End, o: Outgoing, published: bool): Effect {
    match Seal(me, e.relyingKey, o)
    case Err(error) => Effect(e, None, Err(error))
    case Ok(frame) =>
      if published then Effect(e, Some(frame), Ok(())) else Effect(e, None, Err(SignalingError))
  }

  /** The old repeating task is stopped first; the new one starts only after a
      successful first send. */
  function SendRepeating(me: Properties, e: End, o: Outgoing, published: bool): Effect {
    var first := SendMessage(me, e.(repeating := None), o, published);
    if first.result.Err? then first else first.(end := first.end.(repeating := Some(o)))
  }

  function FlashOut(): Outgoing {
    Outgoing(HandshakePrefix, Host, Flash)
  }

  function HostKeyOut(me: Properties): Outgoing {
    Outgoing(HandshakePrefix, Client, Pubkey(Some(me.key)))
  }

  function ClientKeyOut(me: Properties): Outgoing {
    Outgoing(EncryptedPrefix, Host, Pubkey(Some(me.key)))
  }

  function CapabilitiesOut(me: Properties): Outgoing {
    Outgoing(EncryptedPrefix, if me.isHost then Client else Host, Capabilities(me.capabilities))
  }

  function DataOut(me: Properties, payload: Payload): Outgoing {
    Outgoing(EncryptedPrefix, if me.isHost then Client else Host, Data(payload))
  }

  function Open(me: Properties, relyingKey: Option<Key>, f: Frame): Result<Message> {
    match f.prefix
    case HandshakePrefix =>
      if me.secret.None? then Err(SignalingError)
      else if f.sealed.Shared? && f.sealed.secret == me.secret.value then Ok(f.sealed.message)
      else Err(EncryptionError)
    case EncryptedPrefix =>
      if f.sealed.Peer? && f.sealed.receiver == me.key
         && (relyingKey.None? || relyingKey.value == f.sealed.sender)
      then Ok(f.sealed.message)
      else Err(EncryptionError)
  }

  function StoreRelyingKey(e: End, key: Key): End {
    if e.relyingKey.Some? then e else e.(relyingKey := Some(key))
  }

  function StorePeerCapabilities(e: End, capabilities: PeerCapabilities): End {
    if e.peerCapabilities.Some? then e else e.(peerCapabilities := Some(capabilities))
  }

  /** The handler of one received frame, run without interruption. */
  function HandleReceive(me: Properties, e: End, f: Frame, published: bool): Effect {
    var nothing := Effect(e, None, Ok(()));
    if f.recipient != ForRole(me.isHost) then nothing
    else
      match Open(me, e.relyingKey, f)
      case Err(error) => Effect(e, None, Err(error))
      case Ok(message) => HandleMessage(me, e, f, message, published)
  }

  function HandleMessage(me: Properties, e: End, f: Frame, message: Message, published: bool): Effect {
    var nothing := Effect(e, None, Ok(()));
    match (f.prefix, message, e.state, me.isHost)
    case (_, Undecodable, _, _) => Effect(e, None, Err(Other))
    case (HandshakePrefix, Flash, Ready, true) =>
      SendRepeating(me, SetState(e, Handshake).(deadline := true), HostKeyOut(me), published)
    case (HandshakePrefix, Pubkey(announced), Handshake, false) =>
      if announced.None? then Effect(e, None, Err(EncryptionError))
      else if me.hash(announced.value) != me.h then Effect(SetState(e, Error), None, Ok(()))
      else if e.relyingKey.Some? then nothing
      else
        SendRepeating(me, SetState(StoreRelyingKey(e, announced.value), HandshakePartial),
                      ClientKeyOut(me), published)
    case (EncryptedPrefix, Pubkey(announced), Handshake, true) =>
      if announced.None? then Effect(e, None, Err(EncryptionError))
      else if !f.sealed.Peer? || f.sealed.sender != announced.value then nothing
      else if e.relyingKey.Some? then nothing
      else
        SendRepeating(me, SetState(StoreRelyingKey(e, announced.value), HandshakePartial),
                      CapabilitiesOut(me), published)
    case (EncryptedPrefix, Capabilities(capabilities), HandshakePartial, _) =>
      var e1 := SetState(StorePeerCapabilities(e, capabilities), Encrypted);
      if me.isHost then Effect(e1, None, Ok(()))
      else SendMessage(me, e1, CapabilitiesOut(me), published)
    case (EncryptedPrefix, Capabilities(_), Encrypted, false) =>
      SendMessage(me, e, CapabilitiesOut(me), published)
    case (EncryptedPrefix, Data(payload), Encrypted, _) =>
      Effect(e.(delivered := e.delivered + [payload]), None, Ok(()))
    case _ => nothing
  }

  function BeginSetup(e: End): End {
    SetState(e, Connecting)
  }

  /** The tail of `setup`, once the channel is up and subscribed. */
  function FinishSetup(me: Properties, e: End, published: bool): Effect {
    if e.relyingKey.Some? then Effect(SetState(e, Encrypted), None, Ok(()))
    else if me.isHost then Effect(SetState(e, Ready), None, Ok(()))
    else
      var e1 := SetState(SetState(e, Ready), Handshake);
      SendRepeating(me, e1.(deadline := true), FlashOut(), published)
  }

  /** One firing of the repeating task. */
  function Tick(me: Properties, e: End, published: bool): Effect {
    if e.repeating.None? then Effect(e, None, Ok(()))
    else SendMessage(me, e, e.repeating.value, published).(end := e, result := Ok(()))
  }

  /** The 30 s deadline task runs, if it is still set. */
  function DeadlineFires(e: End): End {
    if e.deadline && e.state != Encrypted then SetState(e, Error) else e
  }

  function SendData(me: Properties, e: End, payload: Payload, published: bool): Effect {
    if e.relyingKey.None? then Effect(e, None, Err(SignalingError))
    else SendMessage(me, e, DataOut(me, payload), published)
  }

  // ----- what a received frame does, effect by effect

  /** What the end makes out of a frame: nothing if it is for the other role or does not open. */
  function Heard(me: Properties, e: End, f: Frame): Option<Message> {
    if f.recipient != ForRole(me.isHost) || Open(me, e.relyingKey, f).Err? then None
    else Some(Open(me, e.relyingKey, f).value)
  }

  /** A payload is delivered exactly by an encrypted end that hears one, after those before it. */
  lemma FrameDeliversExactly(me: Properties, e: End, f: Frame, published: bool)
    ensures var e' := HandleReceive(me, e, f, published).end;
            e'.delivered == e.delivered
              + (if e.state == Encrypted && f.prefix == EncryptedPrefix && Heard(me, e, f).Some? && Heard(me, e, f).value.Data?
                 then [Heard(me, e, f).value.payload] else [])
  {
  }

  /** A frame makes an end fail exactly when it is a client in its handshake that
      hears, under the shared secret, a key that does not hash to `h`. */
  lemma FrameFailsExactly(me: Properties, e: End, f: Frame, published: bool)
    requires e.state != Error
    ensures HandleReceive(me, e, f, published).end.state == Error
       <==> && e.state == Handshake && !me.isHost && f.prefix == HandshakePrefix
            && exists key :: Heard(me, e, f) == Some(Pubkey(Some(key))) && me.hash(key) != me.h
  {
  }

  /** A frame makes an end store `key` exactly in its handshake: a client a key under
      the shared secret that hashes to `h`, a host a key that its sender sealed itself. */
  lemma FrameStoresKeyExactly(me: Properties, e: End, f: Frame, published: bool, key: Key)
    requires e.relyingKey.None?
    ensures HandleReceive(me, e, f, published).end.relyingKey == Some(key)
       <==> && e.state == Handshake && Heard(me, e, f) == Some(Pubkey(Some(key)))
            && (if me.isHost then f.prefix == EncryptedPrefix && f.sealed.Peer? && f.sealed.sender == key
                else f.prefix == HandshakePrefix && me.hash(key) == me.h)
  {
  }

  /** A frame starts a handshake exactly when a ready host hears a flash. */
  lemma FrameStartsExactly(me: Properties, e: End, f: Frame, published: bool)
    requires e.state != Handshake
    ensures HandleReceive(me, e, f, published).end.state == Handshake
       <==> e.state == Ready && me.isHost && f.prefix == HandshakePrefix && Heard(me, e, f) == Some(Flash)
  {
  }

  /** A frame completes a handshake exactly when a partial end hears capabilities from
      its peer, which it then has, unless it had some before. */
  lemma FrameCompletesExactly(me: Properties, e: End, f: Frame, published: bool)
    requires e.state != Encrypted
    ensures var e' := HandleReceive(me, e, f, published).end;
            var completes := e.state == HandshakePartial && f.prefix == EncryptedPrefix
                               && Heard(me, e, f).Some? && Heard(me, e, f).value.Capabilities?;
            && (e'.state == Encrypted <==> completes)
            && e'.peerCapabilities == (if completes && e.peerCapabilities.None? then Some(Heard(me, e, f).value.capabilities)
                                       else e.peerCapabilities)
  {
  }

  /** What a frame is answered with, where it is answered: a flash with the host's key,
      a key with the client's key or the host's capabilities, and capabilities by the
      client with its own, also when it is already encrypted. */
  lemma FrameIsAnsweredExactly(me: Properties, e: End, f: Frame)
    requires me.secret.Some?
    ensures var r := HandleReceive(me, e, f, true);
            var heard := Heard(me, e, f);
            var newKey := e.relyingKey.None? && r.end.relyingKey.Some?;
            r.sent == (if e.state == Ready && r.end.state == Handshake then Some(Seal(me, None, HostKeyOut(me)).value)
                       else if newKey && me.isHost then Some(Frame(EncryptedPrefix, Client, Peer(me.key, r.end.relyingKey.value, Capabilities(me.capabilities))))
                       else if newKey then Some(Frame(EncryptedPrefix, Host, Peer(me.key, r.end.relyingKey.value, Pubkey(Some(me.key)))))
                       else if !me.isHost && e.relyingKey.Some? && e.state in {HandshakePartial, Encrypted}
                            && f.prefix == EncryptedPrefix && heard.Some? && heard.value.Capabilities?
                       then Some(Frame(EncryptedPrefix, Host, Peer(me.key, e.relyingKey.value, Capabilities(me.capabilities))))
                       else None)
  {
  }

  /** With accepted publishes, handling a frame fails exactly when the frame is for
      the end and does not open, is no message, or announces a malformed key. */
  lemma FrameIsRefusedExactly(me: Properties, e: End, f: Frame)
    requires me.secret.Some? && (e.state in {HandshakePartial, Encrypted} ==> e.relyingKey.Some?)
    ensures HandleReceive(me, e, f, true).result.Err?
       <==> && f.recipient == ForRole(me.isHost)
            && (|| Heard(me, e, f) in {None, Some(Undecodable)}
                || (&& Heard(me, e, f) == Some(Pubkey(None)) && e.state == Handshake
                    && f.prefix == (if me.isHost then EncryptedPrefix else HandshakePrefix)))
  {
  }

  /** A payload is sent exactly with a stored key and an accepting channel, for that key
      and to the other role; the end is not changed. */
  lemma PayloadIsSentExactly(me: Properties, e: End, payload: Payload, published: bool)
    ensures var r := SendData(me, e, payload, published);
            && r.end == e && (r.result.Ok? <==> e.relyingKey.Some? && published)
            && r.sent == (if e.relyingKey.Some? && published
                          then Some(Frame(EncryptedPrefix, if me.isHost then Client else Host, Peer(me.key, e.relyingKey.value, Data(payload))))
                          else None)
  {
  }

  /** `setup` leaves a host ready and a client in its handshake, with a deadline and, if
      its flash was published, the flash repeating; it fails exactly when it was not. */
  lemma SetupEndsExactly(me: Properties, e: End, published: bool)
    requires e.relyingKey.None?
    ensures var r := FinishSetup(me, e, published);
            var flashed := !me.isHost && me.secret.Some? && published;
            && r.end.state == (if me.isHost then Ready else Handshake) && r.end.relyingKey.None?
            && (!me.isHost ==> r.end.deadline && r.end.repeating.Some? == flashed)
            && r.sent == (if flashed then Some(Frame(HandshakePrefix, Host, Shared(me.secret.value, Flash))) else None)
            && (r.result.Ok? <==> me.isHost || flashed)
            && r.end.broadcasts == e.broadcasts + (if me.isHost then [Ready] else [Ready, Handshake])
  {
  }

  /** What repeats is published again as it was, and a refused resend changes nothing. */
  lemma ResendRepeats(me: Properties, e: End, published: bool)
    ensures var r := Tick(me, e, published);
            && r.end == e && r.result == Ok(())
            && r.sent == (if published && e.repeating.Some? && Seal(me, e.relyingKey, e.repeating.value).Ok?
                          then Some(Seal(me, e.relyingKey, e.repeating.value).value) else None)
  {
  }

  // ----- runs of one end

  /** Where the single call of `setup` has got to. */
  datatype SetupPhase = NotStarted | AwaitingChannel | Finished

  /** `tornDown` says that the layer's `teardown` was called. */
  datatype Node = Node(end: End, setup: SetupPhase, tornDown: bool)

  datatype Event =
    | SetupStarts
    | SetupFails
    | SetupFinishes(published: bool)
    | Receive(frame: Frame, published: bool)
    | DeadlineElapses
    | Resend(published: bool)
    | SendPayload(payload: Payload, published: bool)
    | Teardown

  const NEW_NODE := Node(NEW_END, NotStarted, false)

  /** `setup` is called once, and finishes only while the channel is being
      awaited. Frames may arrive, and the other calls be made, at any time. */
  predicate Enabled(n: Node, ev: Event) {
    match ev
    case SetupStarts => n.setup == NotStarted
    case SetupFails => n.setup == AwaitingChannel
    case SetupFinishes(_) => n.setup == AwaitingChannel
    case _ => true
  }

  function Apply(me: Properties, n: Node, ev: Event): (Node, Option<Frame>) {
    match ev
    case SetupStarts => (n.(end := BeginSetup(n.end), setup := AwaitingChannel), None)
    case SetupFails => (n.(setup := Finished), None)
    case SetupFinishes(published) =>
      var r := FinishSetup(me, n.end, published); (n.(end := r.end, setup := Finished), r.sent)
    case Receive(frame, published) =>
      var r := HandleReceive(me, n.end, frame, published); (n.(end := r.end), r.sent)
    case DeadlineElapses => (n.(end := DeadlineFires(n.end)), None)
    case Resend(published) =>
      var r := Tick(me, n.end, published); (n.(end := r.end), r.sent)
    case SendPayload(payload, published) =>
      var r := SendData(me, n.end, payload, published); (n.(end := r.end), r.sent)
    case Teardown => (Node(StopHandshakeTasks(n.end), n.setup, true), None)
  }

  ghost predicate Next(me: Properties, n: Node, n': Node) {
    exists ev :: Enabled(n, ev) && Apply(me, n, ev).0 == n'
  }

  ghost function NextOf(me: Properties): (Node, Node) -> bool {
    (n, n') => Next(me, n, n')
  }

  ghost predicate IsRun(me: Properties, run: seq<Node>) {
    Runs.IsRun(NEW_NODE, NextOf(me), run)
  }

  // ----- the state order

  function Rank(s: SignalState): nat {
    match s
    case Standby => 0
    case Connecting => 1
    case Ready => 2
    case Handshake => 3
    case HandshakePartial => 4
    case Encrypted => 5
    case Error => 5
  }

  /** Either nothing is broadcast, or one state of higher rank is set and broadcast. */
  predicate Climbs(e: End, e': End) {
    || (e'.state == e.state && e'.broadcasts == e.broadcasts)
    || (Rank(e.state) < Rank(e'.state) && e'.broadcasts == e.broadcasts + [e'.state])
  }

  /** The broadcast history rises strictly in rank and ends in the current state. */
  predicate History(e: End) {
    && (forall i :: 0 <= i < |e.broadcasts| ==> Rank(e.broadcasts[i]) > 0)
    && (forall i, j :: 0 <= i < j < |e.broadcasts| ==> Rank(e.broadcasts[i]) < Rank(e.broadcasts[j]))
    && e.state == (if e.broadcasts == [] then Standby else e.broadcasts[|e.broadcasts| - 1])
  }

  lemma ClimbingKeepsHistory(e: End, e': End)
    requires History(e) && Climbs(e, e')
    ensures History(e')
  {
  }

  /** What every reachable state of one end satisfies, whatever frames arrive. */
  predicate NodeInv(me: Properties, n: Node) {
    var e := n.end;
    && History(e)
    && Bookkeeping(me, e) && (!n.tornDown ==> Armed(e))
    && (n.setup == NotStarted <==> e.state == Standby)
    && (n.setup == AwaitingChannel ==> e.state == Connecting)
  }

  predicate Bookkeeping(me: Properties, e: End) {
    && (e.relyingKey.Some? ==> Rank(e.state) >= 4)
    && (e.state == HandshakePartial || e.state == Encrypted ==> e.relyingKey.Some?)
    && (e.peerCapabilities.Some? <==> e.state == Encrypted)
    && (e.deadline ==> e.state in {Handshake, HandshakePartial})
    && (e.repeating.Some? ==> e.state in {Handshake, HandshakePartial} && e.repeating.value == Repeats(me, e.state))
    && (e.delivered != [] ==> e.state == Encrypted)
    && (!me.isHost && e.relyingKey.Some? ==> me.hash(e.relyingKey.value) == me.h)
  }

  /** A handshake under way has its deadline. */
  predicate Armed(e: End) {
    e.state in {Handshake, HandshakePartial} ==> e.deadline
  }

  /** The message that each handshake state resends. */
  function Repeats(me: Properties, s: SignalState): Outgoing {
    if s == Handshake then (if me.isHost then HostKeyOut(me) else FlashOut())
    else (if me.isHost then CapabilitiesOut(me) else ClientKeyOut(me))
  }

  lemma MessageClimbs(me: Properties, e: End, f: Frame, message: Message, published: bool)
    ensures Climbs(e, HandleMessage(me, e, f, message, published).end)
  {
  }

  lemma MessageKeepsBookkeeping(me: Properties, e: End, f: Frame, message: Message, published: bool)
    requires Bookkeeping(me, e)
    ensures Bookkeeping(me, HandleMessage(me, e, f, message, published).end)
  {
  }

  lemma MessageKeepsArmed(me: Properties, e: End, f: Frame, message: Message, published: bool)
    requires Armed(e)
    ensures Armed(HandleMessage(me, e, f, message, published).end)
  {
  }

  lemma ReceivePreservesInv(me: Properties, n: Node, f: Frame, published: bool)
    requires NodeInv(me, n)
    ensures NodeInv(me, n.(end := HandleReceive(me, n.end, f, published).end))
  {
    if f.recipient == ForRole(me.isHost) && Open(me, n.end.relyingKey, f).Ok? {
      var message := Open(me, n.end.relyingKey, f).value;
      MessageClimbs(me, n.end, f, message, published);
      MessageKeepsBookkeeping(me, n.end, f, message, published);
      if Armed(n.end) {
        MessageKeepsArmed(me, n.end, f, message, published);
      }
      ClimbingKeepsHistory(n.end, HandleMessage(me, n.end, f, message, published).end);
    }
  }

  lemma SetupPreservesInv(me: Properties, n: Node, published: bool)
    requires NodeInv(me, n) && n.setup == AwaitingChannel
    ensures NodeInv(me, n.(end := FinishSetup(me, n.end, published).end, setup := Finished))
  {
    var e' := FinishSetup(me, n.end, published).end;
    ClimbingKeepsHistory(n.end, SetState(n.end, Ready));
    if !me.isHost {
      ClimbingKeepsHistory(SetState(n.end, Ready), e');
    }
  }

  /** What neither receives nor starts anything. */
  lemma OtherEventsKeepInv(me: Properties, n: Node, ev: Event)
    requires NodeInv(me, n) && (ev.SetupFails? || ev.Resend? || ev.SendPayload? || ev.Teardown?) && Enabled(n, ev)
    ensures NodeInv(me, Apply(me, n, ev).0)
  {
  }

  lemma NodeInvPreserved(me: Properties, n: Node, ev: Event)
    requires NodeInv(me, n) && Enabled(n, ev)
    ensures NodeInv(me, Apply(me, n, ev).0)
  {
    match ev
    case Receive(f, published) => ReceivePreservesInv(me, n, f, published);
    case SetupFinishes(published) => SetupPreservesInv(me, n, published);
    case SetupStarts => ClimbingKeepsHistory(n.end, BeginSetup(n.end));
    case DeadlineElapses => ClimbingKeepsHistory(n.end, DeadlineFires(n.end));
    case _ => OtherEventsKeepInv(me, n, ev);
  }

  // ----- what a run of one end promises

  /** Everything one end may do between two moments: climb, and write each stored value once. */
  predicate Evolves(e: End, e': End) {
    && (e'.state == e.state || Rank(e.state) < Rank(e'.state))
    && e.broadcasts <= e'.broadcasts
    && (e'.state == e.state ==> e'.broadcasts == e.broadcasts)
    && (e.relyingKey.Some? ==> e'.relyingKey == e.relyingKey)
    && (e.peerCapabilities.Some? ==> e'.peerCapabilities == e.peerCapabilities)
  }

  lemma MessageEvolves(me: Properties, e: End, f: Frame, message: Message, published: bool)
    ensures Evolves(e, HandleMessage(me, e, f, message, published).end)
  {
    MessageClimbs(me, e, f, message, published);
  }

  lemma SetupEvolves(me: Properties, n: Node, published: bool)
    requires NodeInv(me, n) && n.setup == AwaitingChannel
    ensures Evolves(n.end, FinishSetup(me, n.end, published).end)
  {
    assert SetState(n.end, Ready).broadcasts <= SetState(SetState(n.end, Ready), Handshake).broadcasts;
  }

  lemma EventEvolves(me: Properties, n: Node, ev: Event)
    requires NodeInv(me, n) && Enabled(n, ev)
    ensures Evolves(n.end, Apply(me, n, ev).0.end)
  {
    match ev
    case Receive(f, published) =>
      if f.recipient == ForRole(me.isHost) && Open(me, n.end.relyingKey, f).Ok? {
        MessageEvolves(me, n.end, f, Open(me, n.end.relyingKey, f).value, published);
      }
    case SetupFinishes(published) => SetupEvolves(me, n, published);
    case _ =>
  }

  lemma NextEvolves(me: Properties, n: Node, n': Node)
    requires NodeInv(me, n) && Next(me, n, n')
    ensures NodeInv(me, n') && Evolves(n.end, n'.end)
  {
    var ev :| Enabled(n, ev) && Apply(me, n, ev).0 == n';
    NodeInvPreserved(me, n, ev);
    EventEvolves(me, n, ev);
  }

  lemma RunEvolves(me: Properties, run: seq<Node>, i: nat, j: nat)
    requires IsRun(me, run) && i <= j < |run|
    ensures NodeInv(me, run[j]) && Evolves(run[i].end, run[j].end)
  {
    var inv := (n: Node) => NodeInv(me, n);
    var rel := (n: Node, n': Node) => Evolves(n.end, n'.end);
    forall n, n' | inv(n) && NextOf(me)(n, n') ensures inv(n') && rel(n, n') {
      NextEvolves(me, n, n');
    }
    Runs.RelationHolds(NEW_NODE, NextOf(me), inv, rel, run, i, j);
  }

  lemma {:induction false} RanksBoundLength(states: seq<SignalState>)
    requires forall i :: 0 <= i < |states| ==> Rank(states[i]) > 0
    requires forall i, j :: 0 <= i < j < |states| ==> Rank(states[i]) < Rank(states[j])
    ensures states != [] ==> |states| <= Rank(states[|states| - 1])
  {
    if |states| > 1 {
      RanksBoundLength(states[..|states| - 1]);
    }
  }

  /** In every run, whatever frames arrive: states only climb, `Encrypted` and
      `Error` are final, and at most five states are ever broadcast, so a
      receiver with 32 slots never lags. */
  lemma SignalStateOrder(me: Properties, run: seq<Node>, i: nat, j: nat)
    requires IsRun(me, run) && i <= j < |run|
    ensures Rank(run[i].end.state) <= Rank(run[j].end.state)
    ensures Rank(run[i].end.state) == Rank(run[j].end.state) ==> run[i].end.broadcasts == run[j].end.broadcasts
    ensures Terminal(run[i].end.state) ==> run[j].end.state == run[i].end.state
    ensures History(run[j].end) && |run[j].end.broadcasts| <= 5
  {
    RunEvolves(me, run, i, j);
    RanksBoundLength(run[j].end.broadcasts);
  }

  /** While one end is in a handshake state it resends exactly the message of
      that state or nothing, and it resends nothing in any other state. */
  lemma StateFixesRepeatedMessage(me: Properties, run: seq<Node>, i: nat)
    requires IsRun(me, run) && i < |run|
    ensures run[i].end.repeating.Some? ==>
              && run[i].end.state in {Handshake, HandshakePartial}
              && run[i].end.repeating.value == Repeats(me, run[i].end.state)
  {
    RunEvolves(me, run, i, i);
  }

  /** No handshake hangs before the layer's teardown: while one is under way its
      deadline is armed, and when that elapses the end fails, keeps nothing repeating
      and stays failed. An end that is not in a handshake, encrypted ones included,
      is not touched. After a teardown only a deadline armed since then can fail an
      end. */
  lemma HandshakeEndsAtDeadline(me: Properties, run: seq<Node>, i: nat)
    requires IsRun(me, run) && i < |run|
    ensures var e, e' := run[i].end, Apply(me, run[i], DeadlineElapses).0.end;
            && (e.state in {Handshake, HandshakePartial} && !run[i].tornDown ==> e.deadline)
            && (if e.deadline
                then e.state in {Handshake, HandshakePartial} && e'.state == Error && e'.repeating.None? && !e'.deadline
                else e' == e)
  {
    RunEvolves(me, run, i, i);
  }

  /** Application payloads are passed on by encrypted ends only, and an encrypted
      end has a peer key and the peer's capabilities. */
  lemma PayloadsOnlyWhenEncrypted(me: Properties, run: seq<Node>, i: nat)
    requires IsRun(me, run) && i < |run|
    ensures run[i].end.delivered != [] ==> run[i].end.state == Encrypted
    ensures run[i].end.state == Encrypted ==> run[i].end.relyingKey.Some? && run[i].end.peerCapabilities.Some?
  {
    RunEvolves(me, run, i, i);
  }
}
