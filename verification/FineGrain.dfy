/**
 One host and any number of clients on one topic, with every handler split at
 each lock release and each await, and an outsider who may publish too.

 A task is the list of actions that it has still to run; any task of any end may run
 its next action at any time, and any task may be cancelled at any time. The
 topic is the set of frames ever published: a delivery may pick any of them,
 any number of times and in any order, or never.
 */
module FineGrain {
  import opened Common
  import opened Wire
  import opened Signaling
  import opened TransportChoice
  import Runs

  datatype Action =
    | WriteState(state: SignalState)
    | Subscribe
    | CheckCanEncrypt
    | StoreKey(key: Key)
    | StoreCaps(capabilities: PeerCapabilities)
    | StartDeadline
    | CheckDeadline
    | Encrypt(out: Outgoing, fatal: bool)
    | Publish(frame: Frame, fatal: bool)
    | StartRepeating(out: Outgoing)
    | Repeat(out: Outgoing)
    | Decrypt(frame: Frame)
    | ReadState(frame: Frame, message: Message)

  datatype Task = Done | Do(next: Action, rest: Task)

  /** The locked fields of one end, and its tasks. `reached` and `branched`
      record that `Encrypted` was ever written and that `setup` took its branch. */
  datatype Party = Party(
    state: SignalState,
    relyingKey: Option<Key>,
    peerCapabilities: Option<PeerCapabilities>,
    subscribed: bool,
    branched: bool,
    reached: bool,
    setup: Task,
    tasks: seq<Task>)

  /** What one action did: the new fields, the rest of its task, the frame it
      published and the task it started. */
  datatype Outcome = Outcome(party: Party, rest: Task, sent: Option<Frame>, started: Option<Task>)

  const SETUP_TASK := Do(WriteState(Connecting), Do(Subscribe, Do(CheckCanEncrypt, Done)))

  const NEW_PARTY := Party(Standby, None, None, false, false, false, SETUP_TASK, [])

  function RepeatingSend(o: Outgoing): Task {
    Do(Encrypt(o, true), Do(StartRepeating(o), Done))
  }

  /** The tail of `setup`, chosen by `can_encrypt` and the role. */
  function SetupBranch(me: Properties, canEncrypt: bool): Task {
    if canEncrypt then Do(WriteState(Encrypted), Done)
    else if me.isHost then Do(WriteState(Ready), Done)
    else Do(WriteState(Ready), Do(WriteState(Handshake), Do(StartDeadline, RepeatingSend(FlashOut()))))
  }

  /** The host's branch for a flash. */
  function FlashTask(me: Properties): Task {
    Do(WriteState(Handshake), Do(StartDeadline, RepeatingSend(HostKeyOut(me))))
  }

  /** The branch of `handle_receive` taken for a message in the state just read. */
  function Branch(me: Properties, state: SignalState, f: Frame, message: Message): Task {
    match (f.prefix, message, state, me.isHost)
    case (HandshakePrefix, Flash, Ready, true) => FlashTask(me)
    case (HandshakePrefix, Pubkey(announced), Handshake, false) =>
      if announced.None? then Done
      else if me.hash(announced.value) != me.h then Do(WriteState(Error), Done)
      else Do(StoreKey(announced.value), Do(WriteState(HandshakePartial), RepeatingSend(ClientKeyOut(me))))
    case (EncryptedPrefix, Pubkey(announced), Handshake, true) =>
      if announced.None? || !f.sealed.Peer? || f.sealed.sender != announced.value then Done
      else Do(StoreKey(announced.value), Do(WriteState(HandshakePartial), RepeatingSend(CapabilitiesOut(me))))
    case (EncryptedPrefix, Capabilities(capabilities), HandshakePartial, _) =>
      Do(StoreCaps(capabilities), Do(WriteState(Encrypted),
        if me.isHost then Done else Do(Encrypt(CapabilitiesOut(me), true), Done)))
    case (EncryptedPrefix, Capabilities(_), Encrypted, false) =>
      Do(Encrypt(CapabilitiesOut(me), true), Done)
    case _ => Done
  }

  /** Runs one action; `ok` is the environment's answer where it has one. */
  function Execute(me: Properties, p: Party, a: Action, rest: Task, ok: bool): Outcome {
    match a
    case WriteState(s) =>
      Outcome(p.(state := s, reached := p.reached || s == Encrypted), rest, None, None)
    case Subscribe =>
      if ok then Outcome(p.(subscribed := true), rest, None, None) else Outcome(p, Done, None, None)
    case CheckCanEncrypt =>
      Outcome(p.(branched := true), SetupBranch(me, p.relyingKey.Some?), None, None)
    case StoreKey(key) =>
      if p.relyingKey.Some? then Outcome(p, Done, None, None)
      else Outcome(p.(relyingKey := Some(key)), rest, None, None)
    case StoreCaps(capabilities) =>
      if p.peerCapabilities.Some? then Outcome(p, rest, None, None)
      else Outcome(p.(peerCapabilities := Some(capabilities)), rest, None, None)
    case StartDeadline =>
      Outcome(p, rest, None, if ok then Some(Do(CheckDeadline, Done)) else None)
    case CheckDeadline =>
      Outcome(p, if p.state != Encrypted then Do(WriteState(Error), Done) else Done, None, None)
    case Encrypt(o, fatal) =>
      var sealed := Seal(me, p.relyingKey, o);
      if sealed.Ok? then Outcome(p, Do(Publish(sealed.value, fatal), rest), None, None)
      else Outcome(p, if fatal then Done else rest, None, None)
    case Publish(frame, fatal) =>
      if ok then Outcome(p, rest, Some(frame), None)
      else Outcome(p, if fatal then Done else rest, None, None)
    case StartRepeating(o) =>
      Outcome(p, rest, None, Some(Do(Repeat(o), Done)))
    case Repeat(o) =>
      Outcome(p, Do(Encrypt(o, false), Do(Repeat(o), Done)), None, None)
    case Decrypt(f) =>
      if f.recipient != ForRole(me.isHost) then Outcome(p, Done, None, None)
      else
        var message := Open(me, p.relyingKey, f);
        Outcome(p, if message.Ok? then Do(ReadState(f, message.value), Done) else Done, None, None)
    case ReadState(f, message) =>
      Outcome(p, Branch(me, p.state, f, message), None, None)
  }

  // ----- the joint system

  /** End 0 is the host; the others are clients. */
  datatype World = World(parties: seq<Party>, net: set<Frame>)

  datatype Step =
    | Deliver(i: nat, frame: Frame)
    | RunSetup(i: nat, ok: bool)
    | RunTask(i: nat, t: nat, ok: bool)
    | CancelSetup(i: nat)
    | CancelTask(i: nat, t: nat)
    | SendCall(i: nat, payload: Payload)
    | Inject(frame: Frame)

  /** One host whose key hashes to the `h` of the shared URL, clients whose keys
      do not, all keys different, one shared secret. */
  ghost predicate Valid(ids: seq<Properties>) {
    && |ids| > 0 && ids[0].isHost && ids[0].hash(ids[0].key) == ids[0].h
    && (forall i :: 0 < i < |ids| ==> !ids[i].isHost && ids[i].h == ids[0].h && ids[i].hash == ids[0].hash)
    && (forall i, j :: 0 <= i < j < |ids| ==> ids[i].key != ids[j].key)
  }

  /** The digest an end works with, and whether it is its own: then it is the host. */
  function InitHash(initial: Option<string>, hash: Key -> string, key: Key): (string, bool) {
    var own := hash(key);
    var digest := if initial.Some? then initial.value else own;
    (digest, digest == own)
  }

  /** The properties of an end that is given the digest `h`, or none. */
  function EndProperties(h: Option<string>, hash: Key -> string, secret: string, key: Key, capabilities: PeerCapabilities): Properties {
    var (digest, isHost) := InitHash(h, hash, key);
    Properties(isHost, digest, hash, Some(secret), key, capabilities)
  }

  /** One end creates a session, with an initial digest or without, and any number
      connect to its URL, which always holds the digest of the creator's own key:
      they form a valid system exactly when the creator was given no other digest,
      all keys differ, and no connecting key hashes to the digest of the URL, which
      would make its holder a second host. */
  lemma OneUrlMakesValid(initial: Option<string>, hash: Key -> string, secret: string,
                         keys: seq<Key>, capabilities: seq<PeerCapabilities>, ids: seq<Properties>)
    requires |keys| == |capabilities| == |ids| > 0
    requires forall i :: 0 <= i < |ids| ==>
               ids[i] == EndProperties(if i == 0 then initial else Some(hash(keys[0])), hash, secret, keys[i], capabilities[i])
    ensures Valid(ids) <==>
              && (initial.Some? ==> initial.value == hash(keys[0]))
              && (forall i, j :: 0 <= i < j < |keys| ==> keys[i] != keys[j])
              && (forall i :: 0 < i < |keys| ==> hash(keys[i]) != hash(keys[0]))
  {
  }

  function NewWorld(ids: seq<Properties>): World {
    World(seq(|ids|, i => NEW_PARTY), {})
  }

  /** What the outsider can publish, who has no end's shared secret: any sealed
      payload of the topic under any header, anything sealed with another shared
      secret, and anything from a key of its own to a receiver whose key it knows.
      The key of an end shows in the clear in the peer payloads of that end only. */
  ghost predicate CanForge(ids: seq<Properties>, net: set<Frame>, f: Frame) {
    || (exists g :: g in net && g.sealed == f.sealed)
    || match f.sealed
       case Shared(secret, _) => forall i :: 0 <= i < |ids| ==> ids[i].secret != Some(secret)
       case Peer(s, r, _) =>
         forall i :: 0 <= i < |ids| ==> s != ids[i].key && (r == ids[i].key ==> ShowsKey(net, r))
  }

  ghost predicate ShowsKey(net: set<Frame>, key: Key) {
    exists g :: g in net && g.sealed.Peer? && g.sealed.sender == key
  }

  ghost predicate Enabled(ids: seq<Properties>, w: World, step: Step) {
    && (!step.Inject? ==> step.i < |w.parties|)
    && match step
       case Deliver(i, f) => w.parties[i].subscribed && f in w.net
       case RunSetup(i, _) => w.parties[i].setup.Do?
       case RunTask(i, t, _) => t < |w.parties[i].tasks| && w.parties[i].tasks[t].Do?
       case CancelSetup(_) => true
       case CancelTask(i, t) => t < |w.parties[i].tasks|
       case SendCall(i, _) => w.parties[i].relyingKey.Some?
       case Inject(f) => CanForge(ids, w.net, f)
  }

  function AddTask(p: Party, task: Task): Party {
    p.(tasks := p.tasks + [task])
  }

  function StartedBy(o: Outcome): Party {
    if o.started.Some? then AddTask(o.party, o.started.value) else o.party
  }

  function SentBy(o: Outcome): set<Frame> {
    if o.sent.Some? then {o.sent.value} else {}
  }

  function Apply(ids: seq<Properties>, w: World, step: Step): World
    requires Enabled(ids, w, step) && |ids| == |w.parties|
  {
    if step.Inject? then w.(net := w.net + {step.frame}) else ApplyTo(ids, w, step, w.parties[step.i])
  }

  /** A step of the end that now is `p`. */
  function ApplyTo(ids: seq<Properties>, w: World, step: Step, p: Party): World
    requires Enabled(ids, w, step) && |ids| == |w.parties|
    requires !step.Inject? && p == w.parties[step.i]
  {
    match step
    case Deliver(i, f) => w.(parties := w.parties[i := AddTask(p, Do(Decrypt(f), Done))])
    case RunSetup(i, ok) =>
      var o := Execute(ids[i], p, p.setup.next, p.setup.rest, ok);
      World(w.parties[i := StartedBy(o).(setup := o.rest)], w.net + SentBy(o))
    case RunTask(i, t, ok) =>
      var o := Execute(ids[i], p, p.tasks[t].next, p.tasks[t].rest, ok);
      World(w.parties[i := Ran(p, t, o)], w.net + SentBy(o))
    case CancelSetup(i) => w.(parties := w.parties[i := p.(setup := Done)])
    case CancelTask(i, t) => w.(parties := w.parties[i := p.(tasks := p.tasks[t := Done])])
    case SendCall(i, payload) => w.(parties := w.parties[i := AddTask(p, Do(Encrypt(DataOut(ids[i], payload), true), Done))])
  }

  ghost predicate Next(ids: seq<Properties>, w: World, w': World) {
    |ids| == |w.parties| && exists step :: Enabled(ids, w, step) && Apply(ids, w, step) == w'
  }

  ghost function NextOf(ids: seq<Properties>): (World, World) -> bool {
    (w, w') => Next(ids, w, w')
  }

  ghost predicate IsRun(ids: seq<Properties>, run: seq<World>) {
    Runs.IsRun(NewWorld(ids), NextOf(ids), run)
  }

  // ----- the invariant

  /** What the joint state says that never becomes false: whose key the host
      stored, which ends wrote `Encrypted`, and which ends stored a key. */
  datatype Facts = Facts(hostKey: Option<Key>, reached: set<nat>, keyed: set<nat>)

  function FactsOf(w: World): Facts
    requires |w.parties| > 0
  {
    Facts(w.parties[0].relyingKey,
          set i: nat | i < |w.parties| && w.parties[i].reached,
          set i: nat | i < |w.parties| && w.parties[i].relyingKey.Some?)
  }

  predicate Grows(f: Facts, f': Facts) {
    && (f.hostKey.Some? ==> f'.hostKey == f.hostKey)
    && f.reached <= f'.reached && f.keyed <= f'.keyed
  }

  ghost predicate IsClient(ids: seq<Properties>, j: nat) {
    0 < j < |ids|
  }

  /** The capabilities that end `i` may take for its peer's. */
  ghost predicate PeersCapabilities(ids: seq<Properties>, facts: Facts, i: nat, c: PeerCapabilities)
    requires i < |ids|
  {
    if i == 0 then
      exists j: nat :: IsClient(ids, j) && facts.hostKey == Some(ids[j].key) && c == ids[j].capabilities && j in facts.reached
    else
      facts.hostKey == Some(ids[i].key) && c == ids[0].capabilities
  }

  /** The keys that end `i` may store. */
  ghost predicate PeersKey(ids: seq<Properties>, i: nat, key: Key)
    requires i < |ids|
  {
    if i == 0 then exists j: nat :: IsClient(ids, j) && key == ids[j].key else key == ids[0].key
  }

  /** What an end's published frame may say. */
  ghost predicate Honest(ids: seq<Properties>, facts: Facts, f: Frame)
    requires |ids| > 0
  {
    match f.sealed
    case Shared(_, m) => m == Flash || m == Pubkey(Some(ids[0].key))
    case Peer(s, r, m) =>
      if s == ids[0].key then
        facts.hostKey == Some(r) && 0 in facts.keyed && (m == Capabilities(ids[0].capabilities) || m.Data?)
      else
        exists j: nat :: IsClient(ids, j) && s == ids[j].key && r == ids[0].key && j in facts.keyed
                 && (m == Pubkey(Some(s)) || m.Data? || (m == Capabilities(ids[j].capabilities) && j in facts.reached))
  }

  /** What the outsider sealed opens for no end, or comes after that end stored a key. */
  ghost predicate Foreign(ids: seq<Properties>, facts: Facts, f: Frame) {
    match f.sealed
    case Shared(secret, _) => forall i :: 0 <= i < |ids| ==> ids[i].secret != Some(secret)
    case Peer(s, r, _) =>
      forall i :: 0 <= i < |ids| ==> s != ids[i].key && (r == ids[i].key ==> i in facts.keyed)
  }

  ghost predicate FrameOk(ids: seq<Properties>, facts: Facts, f: Frame)
    requires |ids| > 0
  {
    Honest(ids, facts, f) || Foreign(ids, facts, f)
  }

  /** What a decrypted message may say to end `i`. */
  ghost predicate MessageOk(ids: seq<Properties>, facts: Facts, i: nat, f: Frame, m: Message)
    requires i < |ids|
  {
    match m
    case Pubkey(announced) =>
      && announced.Some?
      && (f.prefix == HandshakePrefix ==> announced.value == ids[0].key)
      && (f.prefix == EncryptedPrefix ==> PeersKey(ids, 0, announced.value))
    case Capabilities(c) => PeersCapabilities(ids, facts, i, c)
    case _ => true
  }

  /** What end `i` may enqueue for sending, once it wrote `Encrypted` or before. */
  ghost predicate OutOk(me: Properties, reached: bool, o: Outgoing) {
    match o.prefix
    case HandshakePrefix => if me.isHost then o.message == Pubkey(Some(me.key)) else o.message == Flash
    case EncryptedPrefix =>
      || o.message.Data?
      || (!me.isHost && o.message == Pubkey(Some(me.key)))
      || ((me.isHost || reached) && o.message == Capabilities(me.capabilities))
  }

  /** What is known at one point of a task: each flag, once true, stays true. */
  datatype Known = Known(key: bool, caps: bool, reached: bool, branched: bool)

  function KnownOf(p: Party): Known {
    Known(p.relyingKey.Some?, p.peerCapabilities.Some?, p.reached, p.branched)
  }

  predicate KnownGrows(k: Known, k': Known) {
    && (k.key ==> k'.key) && (k.caps ==> k'.caps)
    && (k.reached ==> k'.reached) && (k.branched ==> k'.branched)
  }

  /** Every action left in a task of end `i` is justified when its turn comes. */
  ghost predicate Safe(ids: seq<Properties>, facts: Facts, i: nat, known: Known, task: Task)
    requires i < |ids|
    decreases task
  {
    task.Do? ==>
      var rest := task.rest;
      match task.next
      case WriteState(s) =>
        && known.branched
        && (s == HandshakePartial || s == Encrypted ==> known.key)
        && (s == Encrypted ==> known.caps)
        && s != Standby && s != Connecting
        && Safe(ids, facts, i, known.(reached := known.reached || s == Encrypted), rest)
      case Subscribe => false
      case CheckCanEncrypt => false
      case StoreKey(key) =>
        known.branched && PeersKey(ids, i, key) && Safe(ids, facts, i, known.(key := true), rest)
      case StoreCaps(c) =>
        known.branched && known.key && PeersCapabilities(ids, facts, i, c)
        && Safe(ids, facts, i, known.(caps := true), rest)
      case StartDeadline => known.branched && Safe(ids, facts, i, known, rest)
      case CheckDeadline => known.branched && rest.Done?
      case Encrypt(o, _) => OutOk(ids[i], known.reached, o) && Safe(ids, facts, i, known, rest)
      case Publish(f, _) => FrameOk(ids, facts, f) && Safe(ids, facts, i, known, rest)
      case StartRepeating(o) => OutOk(ids[i], known.reached, o) && Safe(ids, facts, i, known, rest)
      case Repeat(o) => OutOk(ids[i], known.reached, o)
      case Decrypt(f) => FrameOk(ids, facts, f) && rest.Done?
      case ReadState(f, m) => MessageOk(ids, facts, i, f, m) && rest.Done?
  }

  /** The fields of end `i`. */
  ghost predicate FieldsOk(ids: seq<Properties>, facts: Facts, i: nat, p: Party)
    requires i < |ids|
  {
    && (p.relyingKey.Some? ==> PeersKey(ids, i, p.relyingKey.value) && p.branched)
    && (p.peerCapabilities.Some? ==> PeersCapabilities(ids, facts, i, p.peerCapabilities.value) && p.relyingKey.Some?)
    && (p.state == HandshakePartial ==> p.relyingKey.Some?)
    && (p.state == Encrypted ==> p.reached)
    && (p.reached ==> p.peerCapabilities.Some?)
    && (!p.branched ==> p.state == Standby || p.state == Connecting)
  }

  /** `setup` is still before its branch, or what is left of it is an ordinary task. */
  ghost predicate SetupOk(ids: seq<Properties>, facts: Facts, i: nat, p: Party)
    requires i < |ids|
  {
    || (!p.branched && p.setup in {SETUP_TASK, SETUP_TASK.rest, SETUP_TASK.rest.rest, Done})
    || (p.branched && Safe(ids, facts, i, KnownOf(p), p.setup))
  }

  ghost predicate PartyOk(ids: seq<Properties>, facts: Facts, i: nat, p: Party)
    requires i < |ids|
  {
    && FieldsOk(ids, facts, i, p)
    && SetupOk(ids, facts, i, p)
    && forall t :: 0 <= t < |p.tasks| ==> Safe(ids, facts, i, KnownOf(p), p.tasks[t])
  }

  ghost predicate Inv(ids: seq<Properties>, w: World) {
    && Valid(ids) && |w.parties| == |ids|
    && (forall i :: 0 <= i < |ids| ==> PartyOk(ids, FactsOf(w), i, w.parties[i]))
    && (forall f :: f in w.net ==> FrameOk(ids, FactsOf(w), f))
  }

  // ----- facts only grow, and everything justified stays justified

  lemma {:induction false} SafeGrows(ids: seq<Properties>, f: Facts, f': Facts, i: nat, k: Known, k': Known, task: Task)
    requires i < |ids| && Grows(f, f') && KnownGrows(k, k') && Safe(ids, f, i, k, task)
    ensures Safe(ids, f', i, k', task)
    decreases task
  {
    if task.Do? {
      var rest := task.rest;
      match task.next
      case WriteState(s) =>
        SafeGrows(ids, f, f', i, k.(reached := k.reached || s == Encrypted), k'.(reached := k'.reached || s == Encrypted), rest);
      case StoreKey(_) => SafeGrows(ids, f, f', i, k.(key := true), k'.(key := true), rest);
      case StoreCaps(_) => SafeGrows(ids, f, f', i, k.(caps := true), k'.(caps := true), rest);
      case StartDeadline => SafeGrows(ids, f, f', i, k, k', rest);
      case Encrypt(_, _) => SafeGrows(ids, f, f', i, k, k', rest);
      case Publish(_, _) => SafeGrows(ids, f, f', i, k, k', rest);
      case StartRepeating(_) => SafeGrows(ids, f, f', i, k, k', rest);
      case _ =>
    }
  }

  lemma FieldsGrow(ids: seq<Properties>, f: Facts, f': Facts, i: nat, p: Party)
    requires i < |ids| && Grows(f, f') && FieldsOk(ids, f, i, p)
    ensures FieldsOk(ids, f', i, p)
  {
  }

  lemma PartyGrows(ids: seq<Properties>, f: Facts, f': Facts, i: nat, p: Party)
    requires i < |ids| && Grows(f, f') && PartyOk(ids, f, i, p)
    ensures PartyOk(ids, f', i, p)
  {
    forall t | 0 <= t < |p.tasks| ensures Safe(ids, f', i, KnownOf(p), p.tasks[t]) {
      SafeGrows(ids, f, f', i, KnownOf(p), KnownOf(p), p.tasks[t]);
    }
    if p.branched {
      SafeGrows(ids, f, f', i, KnownOf(p), KnownOf(p), p.setup);
    }
  }

  // ----- one action keeps everything justified

  /** The facts after end `i` took a step that left it as `p`. */
  function After(facts: Facts, i: nat, p: Party): Facts {
    Facts(if i == 0 then p.relyingKey else facts.hostKey,
          if p.reached then facts.reached + {i} else facts.reached,
          if p.relyingKey.Some? then facts.keyed + {i} else facts.keyed)
  }

  /** The facts speak of end `i` as it is, and a reached client is the host's. */
  ghost predicate Consistent(ids: seq<Properties>, facts: Facts, i: nat, p: Party)
    requires i < |ids|
  {
    && (i == 0 ==> facts.hostKey == p.relyingKey)
    && (i in facts.reached <==> p.reached)
    && (i in facts.keyed <==> p.relyingKey.Some?)
    && (facts.hostKey.Some? ==> PeersKey(ids, 0, facts.hostKey.value))
    && forall j :: j in facts.reached && IsClient(ids, j) ==> facts.hostKey == Some(ids[j].key)
  }

  lemma EncryptSafe(ids: seq<Properties>, facts: Facts, i: nat, p: Party, o: Outgoing)
    requires Valid(ids) && i < |ids| && FieldsOk(ids, facts, i, p) && Consistent(ids, facts, i, p)
    requires OutOk(ids[i], p.reached, o) && Seal(ids[i], p.relyingKey, o).Ok?
    ensures FrameOk(ids, facts, Seal(ids[i], p.relyingKey, o).value)
  {
    if i > 0 {
      assert IsClient(ids, i);
    }
  }

  lemma DecryptSafe(ids: seq<Properties>, facts: Facts, i: nat, p: Party, f: Frame)
    requires Valid(ids) && i < |ids| && FieldsOk(ids, facts, i, p) && Consistent(ids, facts, i, p)
    requires FrameOk(ids, facts, f) && Open(ids[i], p.relyingKey, f).Ok?
    ensures MessageOk(ids, facts, i, f, Open(ids[i], p.relyingKey, f).value)
  {
  }

  lemma RepeatingSendSafe(ids: seq<Properties>, facts: Facts, i: nat, k: Known, o: Outgoing)
    requires i < |ids| && OutOk(ids[i], k.reached, o)
    ensures Safe(ids, facts, i, k, RepeatingSend(o))
  {
  }

  lemma BranchSafe(ids: seq<Properties>, facts: Facts, i: nat, p: Party, f: Frame, m: Message)
    requires Valid(ids) && i < |ids| && FieldsOk(ids, facts, i, p)
    requires MessageOk(ids, facts, i, f, m)
    ensures Safe(ids, facts, i, KnownOf(p), Branch(ids[i], p.state, f, m))
  {
    var task, k := Branch(ids[i], p.state, f, m), KnownOf(p);
    if task.Do? && task.next.WriteState? && task.next.state == Handshake {
      RepeatingSendSafe(ids, facts, i, k, HostKeyOut(ids[i]));
    } else if task.Do? && task.next.StoreKey? {
      RepeatingSendSafe(ids, facts, i, k.(key := true), if i == 0 then CapabilitiesOut(ids[i]) else ClientKeyOut(ids[i]));
      assert Safe(ids, facts, i, k.(key := true), task.rest);
    } else if task.Do? && task.next.StoreCaps? {
      assert Safe(ids, facts, i, k.(caps := true), task.rest);
    }
  }

  /** The outcome of an action of end `i` keeps everything about it justified. */
  ghost predicate OutcomeOk(ids: seq<Properties>, facts: Facts, i: nat, p: Party, o: Outcome)
    requires i < |ids|
  {
    var facts' := After(facts, i, o.party);
    && Grows(facts, facts') && KnownGrows(KnownOf(p), KnownOf(o.party))
    && FieldsOk(ids, facts', i, o.party)
    && Safe(ids, facts', i, KnownOf(o.party), o.rest)
    && (o.sent.Some? ==> FrameOk(ids, facts', o.sent.value))
    && (o.started.Some? ==> Safe(ids, facts', i, KnownOf(o.party), o.started.value))
    && o.party.setup == p.setup && o.party.tasks == p.tasks && o.party.branched == p.branched
  }

  lemma Unchanged(ids: seq<Properties>, facts: Facts, i: nat, p: Party)
    requires i < |ids| && Consistent(ids, facts, i, p)
    ensures After(facts, i, p) == facts
  {
    assert p.reached ==> facts.reached + {i} == facts.reached;
    assert p.relyingKey.Some? ==> facts.keyed + {i} == facts.keyed;
  }

  lemma WriteStateSafe(ids: seq<Properties>, facts: Facts, i: nat, p: Party, s: SignalState, rest: Task, ok: bool)
    requires Valid(ids) && i < |ids| && FieldsOk(ids, facts, i, p) && Consistent(ids, facts, i, p)
    requires Safe(ids, facts, i, KnownOf(p), Do(WriteState(s), rest))
    ensures OutcomeOk(ids, facts, i, p, Execute(ids[i], p, WriteState(s), rest, ok))
  {
    var p' := Execute(ids[i], p, WriteState(s), rest, ok).party;
    FieldsGrow(ids, facts, After(facts, i, p'), i, p);
    SafeGrows(ids, facts, After(facts, i, p'), i, KnownOf(p'), KnownOf(p'), rest);
  }

  lemma StoreKeySafe(ids: seq<Properties>, facts: Facts, i: nat, p: Party, key: Key, rest: Task, ok: bool)
    requires Valid(ids) && i < |ids| && FieldsOk(ids, facts, i, p) && Consistent(ids, facts, i, p)
    requires Safe(ids, facts, i, KnownOf(p), Do(StoreKey(key), rest))
    ensures OutcomeOk(ids, facts, i, p, Execute(ids[i], p, StoreKey(key), rest, ok))
  {
    var p' := Execute(ids[i], p, StoreKey(key), rest, ok).party;
    Unchanged(ids, facts, i, p);
    FieldsGrow(ids, facts, After(facts, i, p'), i, p);
    if p.relyingKey.None? {
      SafeGrows(ids, facts, After(facts, i, p'), i, KnownOf(p'), KnownOf(p'), rest);
    }
  }

  lemma StoreCapsSafe(ids: seq<Properties>, facts: Facts, i: nat, p: Party, c: PeerCapabilities, rest: Task, ok: bool)
    requires Valid(ids) && i < |ids| && FieldsOk(ids, facts, i, p) && Consistent(ids, facts, i, p)
    requires Safe(ids, facts, i, KnownOf(p), Do(StoreCaps(c), rest))
    ensures OutcomeOk(ids, facts, i, p, Execute(ids[i], p, StoreCaps(c), rest, ok))
  {
    Unchanged(ids, facts, i, p);
  }

  lemma EncryptStepSafe(ids: seq<Properties>, facts: Facts, i: nat, p: Party, out: Outgoing, fatal: bool, rest: Task, ok: bool)
    requires Valid(ids) && i < |ids| && FieldsOk(ids, facts, i, p) && Consistent(ids, facts, i, p)
    requires Safe(ids, facts, i, KnownOf(p), Do(Encrypt(out, fatal), rest))
    ensures OutcomeOk(ids, facts, i, p, Execute(ids[i], p, Encrypt(out, fatal), rest, ok))
  {
    Unchanged(ids, facts, i, p);
    if Seal(ids[i], p.relyingKey, out).Ok? {
      EncryptSafe(ids, facts, i, p, out);
    }
  }

  lemma DecryptStepSafe(ids: seq<Properties>, facts: Facts, i: nat, p: Party, f: Frame, rest: Task, ok: bool)
    requires Valid(ids) && i < |ids| && FieldsOk(ids, facts, i, p) && Consistent(ids, facts, i, p)
    requires Safe(ids, facts, i, KnownOf(p), Do(Decrypt(f), rest))
    ensures OutcomeOk(ids, facts, i, p, Execute(ids[i], p, Decrypt(f), rest, ok))
  {
    Unchanged(ids, facts, i, p);
    if Open(ids[i], p.relyingKey, f).Ok? {
      DecryptSafe(ids, facts, i, p, f);
    }
  }

  lemma ReadStateSafe(ids: seq<Properties>, facts: Facts, i: nat, p: Party, f: Frame, m: Message, rest: Task, ok: bool)
    requires Valid(ids) && i < |ids| && FieldsOk(ids, facts, i, p) && Consistent(ids, facts, i, p)
    requires Safe(ids, facts, i, KnownOf(p), Do(ReadState(f, m), rest))
    ensures OutcomeOk(ids, facts, i, p, Execute(ids[i], p, ReadState(f, m), rest, ok))
  {
    Unchanged(ids, facts, i, p);
    BranchSafe(ids, facts, i, p, f, m);
  }

  /** The actions that write no locked field. */
  lemma OtherActionSafe(ids: seq<Properties>, facts: Facts, i: nat, p: Party, a: Action, rest: Task, ok: bool)
    requires Valid(ids) && i < |ids| && FieldsOk(ids, facts, i, p) && Consistent(ids, facts, i, p)
    requires Safe(ids, facts, i, KnownOf(p), Do(a, rest))
    requires a.StartDeadline? || a.CheckDeadline? || a.Publish? || a.StartRepeating? || a.Repeat?
    ensures OutcomeOk(ids, facts, i, p, Execute(ids[i], p, a, rest, ok))
  {
    Unchanged(ids, facts, i, p);
  }

  lemma ExecuteSafe(ids: seq<Properties>, facts: Facts, i: nat, p: Party, a: Action, rest: Task, ok: bool)
    requires Valid(ids) && i < |ids| && FieldsOk(ids, facts, i, p) && Consistent(ids, facts, i, p)
    requires Safe(ids, facts, i, KnownOf(p), Do(a, rest))
    ensures OutcomeOk(ids, facts, i, p, Execute(ids[i], p, a, rest, ok))
  {
    match a
    case WriteState(s) => WriteStateSafe(ids, facts, i, p, s, rest, ok);
    case StoreKey(key) => StoreKeySafe(ids, facts, i, p, key, rest, ok);
    case StoreCaps(c) => StoreCapsSafe(ids, facts, i, p, c, rest, ok);
    case Encrypt(out, fatal) => EncryptStepSafe(ids, facts, i, p, out, fatal, rest, ok);
    case Decrypt(f) => DecryptStepSafe(ids, facts, i, p, f, rest, ok);
    case ReadState(f, m) => ReadStateSafe(ids, facts, i, p, f, m, rest, ok);
    case _ => OtherActionSafe(ids, facts, i, p, a, rest, ok);
  }

  // ----- every step of the joint system keeps the invariant

  lemma FactsAfter(w: World, i: nat, p: Party, net: set<Frame>)
    requires i < |w.parties| && (w.parties[i].reached ==> p.reached)
    requires w.parties[i].relyingKey.Some? ==> p.relyingKey.Some?
    ensures FactsOf(World(w.parties[i := p], net)) == After(FactsOf(w), i, p)
  {
    var w' := World(w.parties[i := p], net);
    assert FactsOf(w').reached == After(FactsOf(w), i, p).reached;
    assert FactsOf(w').keyed == After(FactsOf(w), i, p).keyed;
  }

  lemma InvIsConsistent(ids: seq<Properties>, w: World, i: nat)
    requires Inv(ids, w) && i < |ids|
    ensures Consistent(ids, FactsOf(w), i, w.parties[i])
  {
    assert PartyOk(ids, FactsOf(w), 0, w.parties[0]);
  }

  /** One end changes in a justified way, and publishes justified frames. */
  lemma UpdateKeepsInv(ids: seq<Properties>, w: World, i: nat, p: Party, sent: set<Frame>)
    requires Inv(ids, w) && i < |ids|
    requires var facts' := After(FactsOf(w), i, p);
             && Grows(FactsOf(w), facts') && (w.parties[i].reached ==> p.reached)
             && (w.parties[i].relyingKey.Some? ==> p.relyingKey.Some?)
             && PartyOk(ids, facts', i, p)
             && forall f :: f in sent ==> FrameOk(ids, facts', f)
    ensures Inv(ids, World(w.parties[i := p], w.net + sent))
  {
    var facts, w' := FactsOf(w), World(w.parties[i := p], w.net + sent);
    var facts' := FactsOf(w');
    FactsAfter(w, i, p, w.net + sent);
    forall j | 0 <= j < |ids| ensures PartyOk(ids, facts', j, w'.parties[j]) {
      if j != i {
        PartyGrows(ids, facts, facts', j, w.parties[j]);
      }
    }
    forall f | f in w'.net ensures FrameOk(ids, facts', f) {
      if f !in sent {
        FrameGrows(ids, facts, facts', f);
      }
    }
  }

  lemma FrameGrows(ids: seq<Properties>, facts: Facts, facts': Facts, f: Frame)
    requires |ids| > 0 && Grows(facts, facts') && FrameOk(ids, facts, f)
    ensures FrameOk(ids, facts', f)
  {
  }

  /** A task action leaves the acting end justified. */
  lemma OutcomeKeepsParty(ids: seq<Properties>, facts: Facts, i: nat, p: Party, o: Outcome)
    requires i < |ids| && PartyOk(ids, facts, i, p) && OutcomeOk(ids, facts, i, p, o)
    ensures PartyOk(ids, After(facts, i, o.party), i, o.party)
    ensures PartyOk(ids, After(facts, i, o.party), i, StartedBy(o))
  {
    var facts', p', k := After(facts, i, o.party), StartedBy(o), KnownOf(o.party);
    forall t | 0 <= t < |p.tasks| ensures Safe(ids, facts', i, k, p.tasks[t]) {
      SafeGrows(ids, facts, facts', i, KnownOf(p), k, p.tasks[t]);
    }
    if p.branched {
      SafeGrows(ids, facts, facts', i, KnownOf(p), k, p.setup);
    }
  }

  /** The end after an action of task `t`. */
  function Ran(p: Party, t: nat, o: Outcome): Party
    requires t < |p.tasks|
  {
    StartedBy(o.(party := o.party.(tasks := p.tasks[t := o.rest])))
  }

  lemma RanIsOk(ids: seq<Properties>, facts: Facts, i: nat, p: Party, t: nat, o: Outcome)
    requires i < |ids| && t < |p.tasks| && PartyOk(ids, facts, i, p) && OutcomeOk(ids, facts, i, p, o)
    ensures After(facts, i, Ran(p, t, o)) == After(facts, i, o.party)
    ensures PartyOk(ids, After(facts, i, o.party), i, Ran(p, t, o))
  {
    OutcomeKeepsParty(ids, facts, i, p, o);
  }

  lemma TaskStepKeepsInv(ids: seq<Properties>, w: World, i: nat, t: nat, ok: bool)
    requires Inv(ids, w) && Enabled(ids, w, RunTask(i, t, ok))
    ensures Inv(ids, Apply(ids, w, RunTask(i, t, ok)))
  {
    var p, facts := w.parties[i], FactsOf(w);
    var o := Execute(ids[i], p, p.tasks[t].next, p.tasks[t].rest, ok);
    InvIsConsistent(ids, w, i);
    ExecuteSafe(ids, facts, i, p, p.tasks[t].next, p.tasks[t].rest, ok);
    RanIsOk(ids, facts, i, p, t, o);
    UpdateKeepsInv(ids, w, i, Ran(p, t, o), SentBy(o));
  }

  lemma SetupBranchSafe(ids: seq<Properties>, facts: Facts, i: nat, k: Known)
    requires Valid(ids) && i < |ids| && k.branched
    ensures Safe(ids, facts, i, k, SetupBranch(ids[i], false))
  {
    if i > 0 {
      RepeatingSendSafe(ids, facts, i, k, FlashOut());
      assert Safe(ids, facts, i, k, Do(WriteState(Handshake), Do(StartDeadline, RepeatingSend(FlashOut()))));
    }
  }

  /** The steps of `setup` before it chooses its branch touch nothing a task relies on. */
  lemma EarlySetupKeepsParty(ids: seq<Properties>, facts: Facts, i: nat, p: Party, ok: bool)
    requires Valid(ids) && i < |ids| && PartyOk(ids, facts, i, p) && p.setup.Do? && !p.branched
    ensures var o := Execute(ids[i], p, p.setup.next, p.setup.rest, ok);
            && o.sent.None? && o.started.None? && o.party.relyingKey == p.relyingKey && o.party.reached == p.reached
            && PartyOk(ids, facts, i, o.party.(setup := o.rest))
  {
    var o := Execute(ids[i], p, p.setup.next, p.setup.rest, ok);
    var p' := o.party.(setup := o.rest);
    forall t | 0 <= t < |p.tasks| ensures Safe(ids, facts, i, KnownOf(p'), p.tasks[t]) {
      SafeGrows(ids, facts, facts, i, KnownOf(p), KnownOf(p'), p.tasks[t]);
    }
    SetupBranchSafe(ids, facts, i, KnownOf(p).(branched := true));
  }

  lemma SetupStepKeepsInv(ids: seq<Properties>, w: World, i: nat, ok: bool)
    requires Inv(ids, w) && Enabled(ids, w, RunSetup(i, ok))
    ensures Inv(ids, Apply(ids, w, RunSetup(i, ok)))
  {
    var p, facts := w.parties[i], FactsOf(w);
    var o := Execute(ids[i], p, p.setup.next, p.setup.rest, ok);
    var p' := StartedBy(o).(setup := o.rest);
    InvIsConsistent(ids, w, i);
    if p.branched {
      ExecuteSafe(ids, facts, i, p, p.setup.next, p.setup.rest, ok);
      OutcomeKeepsParty(ids, facts, i, p, o);
      assert After(facts, i, p') == After(facts, i, o.party);
    } else {
      EarlySetupKeepsParty(ids, facts, i, p, ok);
      Unchanged(ids, facts, i, p);
      assert After(facts, i, p') == facts;
    }
    UpdateKeepsInv(ids, w, i, p', SentBy(o));
  }

  /** A new task, or fewer actions to run, keeps one end justified. */
  lemma NewTasksKeepInv(ids: seq<Properties>, w: World, i: nat, p: Party)
    requires Inv(ids, w) && i < |ids|
    requires p.(setup := w.parties[i].setup, tasks := w.parties[i].tasks) == w.parties[i]
    requires PartyOk(ids, FactsOf(w), i, p)
    ensures Inv(ids, w.(parties := w.parties[i := p]))
  {
    InvIsConsistent(ids, w, i);
    Unchanged(ids, FactsOf(w), i, w.parties[i]);
    assert w.net + {} == w.net;
    UpdateKeepsInv(ids, w, i, p, {});
  }

  /** Who shows its key in the clear has stored one. */
  lemma ShownKeyIsKeyed(ids: seq<Properties>, w: World, i: nat)
    requires Inv(ids, w) && i < |ids| && ShowsKey(w.net, ids[i].key)
    ensures i in FactsOf(w).keyed
  {
    var g :| g in w.net && g.sealed.Peer? && g.sealed.sender == ids[i].key;
    assert FrameOk(ids, FactsOf(w), g);
  }

  /** Nothing that the outsider publishes makes a difference. */
  lemma InjectKeepsInv(ids: seq<Properties>, w: World, f: Frame)
    requires Inv(ids, w) && CanForge(ids, w.net, f)
    ensures Inv(ids, w.(net := w.net + {f}))
  {
    var facts, w' := FactsOf(w), w.(net := w.net + {f});
    assert FactsOf(w') == facts;
    if g :| g in w.net && g.sealed == f.sealed {
      assert FrameOk(ids, facts, g);
    } else {
      forall i | 0 <= i < |ids| && f.sealed.Peer? && f.sealed.receiver == ids[i].key ensures i in facts.keyed {
        ShownKeyIsKeyed(ids, w, i);
      }
      assert Foreign(ids, facts, f);
    }
  }

  /** The steps that only add a task or cancel one. */
  lemma TaskListKeepsInv(ids: seq<Properties>, w: World, step: Step)
    requires Inv(ids, w) && Enabled(ids, w, step) && !step.RunTask? && !step.RunSetup? && !step.Inject?
    ensures Inv(ids, Apply(ids, w, step))
  {
    var i, p' := step.i, Apply(ids, w, step).parties[step.i];
    assert PartyOk(ids, FactsOf(w), i, w.parties[i]);
    NewTasksKeepInv(ids, w, i, p');
  }

  lemma StepKeepsInv(ids: seq<Properties>, w: World, step: Step)
    requires Inv(ids, w) && Enabled(ids, w, step)
    ensures Inv(ids, Apply(ids, w, step))
  {
    match step
    case RunTask(i, t, ok) => TaskStepKeepsInv(ids, w, i, t, ok);
    case RunSetup(i, ok) => SetupStepKeepsInv(ids, w, i, ok);
    case Inject(f) => InjectKeepsInv(ids, w, f);
    case _ => TaskListKeepsInv(ids, w, step);
  }

  lemma NextKeepsInv(ids: seq<Properties>, w: World, w': World)
    requires Inv(ids, w) && Next(ids, w, w')
    ensures Inv(ids, w')
  {
    var step :| Enabled(ids, w, step) && Apply(ids, w, step) == w';
    StepKeepsInv(ids, w, step);
  }

  lemma RunInvariant(ids: seq<Properties>, run: seq<World>, n: nat)
    requires Valid(ids) && IsRun(ids, run) && n < |run|
    ensures Inv(ids, run[n])
  {
    forall w, w' | Inv(ids, w) && Next(ids, w, w') ensures Inv(ids, w') {
      NextKeepsInv(ids, w, w');
    }
    assert Inv(ids, NewWorld(ids));
    Runs.InvariantHolds(NewWorld(ids), NextOf(ids), w => Inv(ids, w), run, n);
  }

  // ----- what every run promises

  /** What one end stored stays stored, and having reached `Encrypted` stays so. */
  predicate WrittenOnce(p: Party, p': Party) {
    && (p.relyingKey.Some? ==> p'.relyingKey == p.relyingKey)
    && (p.peerCapabilities.Some? ==> p'.peerCapabilities == p.peerCapabilities)
    && (p.reached ==> p'.reached)
  }

  /** Only writing `Encrypted` makes an end reach it. */
  predicate StepOk(p: Party, p': Party) {
    WrittenOnce(p, p') && (!p.reached && p'.reached ==> p'.state == Encrypted)
  }

  lemma ExecuteWritesOnce(me: Properties, p: Party, a: Action, rest: Task, ok: bool)
    ensures StepOk(p, Execute(me, p, a, rest, ok).party)
  {
  }

  lemma StepWritesOnce(ids: seq<Properties>, w: World, step: Step, i: nat)
    requires |w.parties| == |ids| && Enabled(ids, w, step) && i < |ids|
    ensures StepOk(w.parties[i], Apply(ids, w, step).parties[i])
  {
    match step
    case RunTask(j, t, ok) =>
      var p := w.parties[j];
      ExecuteWritesOnce(ids[j], p, p.tasks[t].next, p.tasks[t].rest, ok);
    case RunSetup(j, ok) =>
      var p := w.parties[j];
      ExecuteWritesOnce(ids[j], p, p.setup.next, p.setup.rest, ok);
    case _ =>
  }

  lemma NextWritesOnce(ids: seq<Properties>, w: World, w': World, i: nat)
    requires Next(ids, w, w') && i < |ids|
    ensures |w'.parties| == |ids|
    ensures StepOk(w.parties[i], w'.parties[i])
  {
    var step :| Enabled(ids, w, step) && Apply(ids, w, step) == w';
    StepWritesOnce(ids, w, step, i);
  }

  lemma RunWritesOnce(ids: seq<Properties>, run: seq<World>, m: nat, n: nat, i: nat)
    requires IsRun(ids, run) && m <= n < |run| && i < |ids|
    ensures |run[m].parties| == |run[n].parties| == |ids|
    ensures WrittenOnce(run[m].parties[i], run[n].parties[i])
  {
    var inv := (w: World) => |w.parties| == |ids|;
    var rel := (w: World, w': World) =>
      i < |w.parties| && i < |w'.parties| && WrittenOnce(w.parties[i], w'.parties[i]);
    forall w, w' | inv(w) && NextOf(ids)(w, w') ensures inv(w') && rel(w, w') {
      NextWritesOnce(ids, w, w', i);
    }
    Runs.RelationHolds(NewWorld(ids), NextOf(ids), inv, rel, run, m, n);
    Runs.InvariantHolds(NewWorld(ids), NextOf(ids), inv, run, m);
  }

  lemma {:induction false} ReachedWasEncrypted(ids: seq<Properties>, run: seq<World>, n: nat, i: nat) returns (m: nat)
    requires IsRun(ids, run) && n < |run| && i < |ids|
    requires i < |run[n].parties| && run[n].parties[i].reached
    ensures m <= n && i < |run[m].parties| && run[m].parties[i].state == Encrypted
  {
    assert NextOf(ids)(run[n - 1], run[n]);
    NextWritesOnce(ids, run[n - 1], run[n], i);
    if run[n - 1].parties[i].reached {
      m := ReachedWasEncrypted(ids, run, n - 1, i);
    } else {
      m := n;
    }
  }

  /** Key safety: stored keys and capabilities never change, a client's stored
      key is the host's and hashes to `h`, and an encrypted end has both. */
  lemma KeySafety(ids: seq<Properties>, run: seq<World>, m: nat, n: nat, i: nat)
    requires Valid(ids) && IsRun(ids, run) && m <= n < |run| && i < |ids|
    ensures |run[m].parties| == |run[n].parties| == |ids|
    ensures WrittenOnce(run[m].parties[i], run[n].parties[i])
    ensures var p := run[n].parties[i];
            && (i > 0 && p.relyingKey.Some? ==> ids[i].hash(p.relyingKey.value) == ids[i].h && p.relyingKey.value == ids[0].key)
            && (p.state == Encrypted ==> p.relyingKey.Some? && p.peerCapabilities.Some?)
  {
    RunWritesOnce(ids, run, m, n, i);
    RunInvariant(ids, run, n);
    assert PartyOk(ids, FactsOf(run[n]), i, run[n].parties[i]);
  }

  /** A client that is ever encrypted is the one whose key the host stored. */
  lemma EncryptedClientIsPaired(ids: seq<Properties>, run: seq<World>, n: nat, a: nat)
    requires Valid(ids) && IsRun(ids, run) && n < |run| && 0 < a < |ids|
    requires |run[n].parties| == |ids| && run[n].parties[a].state == Encrypted
    ensures run[n].parties[0].relyingKey == Some(ids[a].key)
  {
    RunInvariant(ids, run, n);
    assert PartyOk(ids, FactsOf(run[n]), a, run[n].parties[a]);
  }

  /** Unique pairing: at most one client is encrypted at any times of a run. */
  lemma UniquePairing(ids: seq<Properties>, run: seq<World>, m: nat, n: nat, a: nat, b: nat)
    requires Valid(ids) && IsRun(ids, run) && m <= n < |run| && 0 < a < |ids| && 0 < b < |ids|
    requires |run[m].parties| == |run[n].parties| == |ids|
    requires run[m].parties[a].state == Encrypted && run[n].parties[b].state == Encrypted
    ensures a == b && run[n].parties[0].relyingKey == Some(ids[a].key)
  {
    EncryptedClientIsPaired(ids, run, m, a);
    EncryptedClientIsPaired(ids, run, n, b);
    RunWritesOnce(ids, run, m, n, 0);
    assert ids[a].key == ids[b].key;
  }

  /** Both ends of the pair hold each other's real key and own capabilities, and
      compute the same transport from them. */
  ghost predicate Agree(ids: seq<Properties>, w: World, j: nat)
    requires |w.parties| == |ids| && 0 < j < |ids|
  {
    var host, client := w.parties[0], w.parties[j];
    && host.relyingKey == Some(ids[j].key) && client.relyingKey == Some(ids[0].key)
    && host.peerCapabilities == Some(ids[j].capabilities) && client.peerCapabilities == Some(ids[0].capabilities)
    && SelectTransportId(true, ids[0].capabilities.transports, host.peerCapabilities.value.transports)
       == SelectTransportId(false, ids[j].capabilities.transports, client.peerCapabilities.value.transports)
  }

  /** Completion agreement: once the host is encrypted, a client `j` was
      encrypted at some moment `m` before, and the two agree from now on. */
  lemma CompletionAgreement(ids: seq<Properties>, run: seq<World>, n: nat) returns (j: nat, m: nat)
    requires Valid(ids) && IsRun(ids, run) && n < |run|
    requires |run[n].parties| == |ids| && run[n].parties[0].state == Encrypted
    ensures 0 < j < |ids| && m <= n && |run[m].parties| == |ids| && run[m].parties[j].state == Encrypted
    ensures forall k :: n <= k < |run| ==> |run[k].parties| == |ids| && Agree(ids, run[k], j)
  {
    RunInvariant(ids, run, n);
    var facts := FactsOf(run[n]);
    assert PartyOk(ids, facts, 0, run[n].parties[0]);
    j :| IsClient(ids, j) && facts.hostKey == Some(ids[j].key) && j in facts.reached
      && run[n].parties[0].peerCapabilities == Some(ids[j].capabilities);
    m := ReachedWasEncrypted(ids, run, n, j);
    RunWritesOnce(ids, run, m, n, j);
    forall k | n <= k < |run| ensures |run[k].parties| == |ids| && Agree(ids, run[k], j) {
      RunWritesOnce(ids, run, n, k, 0);
      RunWritesOnce(ids, run, n, k, j);
      RunInvariant(ids, run, k);
      assert PartyOk(ids, FactsOf(run[k]), j, run[k].parties[j]);
    }
  }
}
