/**
 How one session's status is written by `connect`, the signal state loop, the
 transport state loop, waiting callers and closers, whatever states signaling
 broadcasts. The signal loop alone sets the transport up.

 A broadcast channel is its log and, for each receiver, a cursor into it.
 */
module LinkLoops {
  import opened Common
  import S = Signaling
  import Runs
  import opened SessionStates

  datatype TransportState = Standby | Connecting | TransportReady | TransportConnected | TransportFailed

  datatype Connect = NotCalled | Taken | StatusWritten | LoopsStarted

  datatype SignalLoop = NotPolled | Waiting | Handling(state: S.SignalState) | InTransportSetup

  datatype TransportLoop = TransportNotPolled | TransportWaiting | TransportHandling(observed: TransportState) | Returned

  /** `setUp` records that the signal loop has called `transport.setup`;
      `seenConnected` counts waiting callers about to write `Connected`. */
  datatype World = World(
    connect: Connect,
    signalLog: seq<S.SignalState>,
    signalLoop: SignalLoop,
    signalCursor: nat,
    setUp: bool,
    transportLog: seq<TransportState>,
    transportLoop: TransportLoop,
    transportCursor: nat,
    seenConnected: nat,
    status: SessionState)

  const NEW_WORLD := World(NotCalled, [], NotPolled, 0, false, [], TransportNotPolled, 0, 0, Created)

  datatype Step =
    | ConnectTakesEvents
    | ConnectWritesStatus
    | ConnectStartsLoops
    | Broadcast(states: seq<S.SignalState>)
    | SignalLoopSubscribes
    | SignalLoopReceives
    | SignalLoopHandles(commonTransport: bool)
    | TransportSetupReturns(ok: bool)
    | TransportChanges(s: TransportState)
    | TransportLoopSubscribes
    | TransportLoopReceives
    | TransportLoopHandles
    | WaiterSeesConnected
    | WaiterWrites
    | WaiterFails
    | Closes

  /** The signaling layer is set up only by `connect`, and the transport moves to
      any state but `Standby` only once it has been set up. */
  predicate CanStep(w: World, s: Step) {
    match s
    case ConnectTakesEvents => w.connect == NotCalled
    case ConnectWritesStatus => w.connect == Taken
    case ConnectStartsLoops => w.connect == StatusWritten
    case Broadcast(states) => w.connect == LoopsStarted || states == []
    case SignalLoopSubscribes => w.connect == LoopsStarted && w.signalLoop == NotPolled
    case SignalLoopReceives => w.signalLoop == Waiting && w.signalCursor < |w.signalLog|
    case SignalLoopHandles(_) => w.signalLoop.Handling?
    case TransportSetupReturns(_) => w.signalLoop == InTransportSetup
    case TransportChanges(s) => s == Standby || w.setUp
    case TransportLoopSubscribes => w.connect == LoopsStarted && w.transportLoop == TransportNotPolled
    case TransportLoopReceives => w.transportLoop == TransportWaiting && w.transportCursor < |w.transportLog|
    case TransportLoopHandles => w.transportLoop.TransportHandling?
    case WaiterSeesConnected => TransportConnected in w.transportLog
    case WaiterWrites => w.seenConnected > 0
    case WaiterFails => TransportFailed in w.transportLog
    case Closes => true
  }

  function HandleSignal(w: World, s: S.SignalState, commonTransport: bool): World {
    match s
    case Ready => w.(signalLoop := Waiting, status := SessionState.Ready)
    case Handshake => w.(signalLoop := Waiting, status := Linking)
    case HandshakePartial => w.(signalLoop := Waiting, status := Linking)
    case Encrypted =>
      if commonTransport then w.(signalLoop := InTransportSetup, setUp := true)
      else w.(signalLoop := Waiting, status := Disconnected)
    case Error => w.(signalLoop := Waiting, status := Disconnected)
    case _ => w.(signalLoop := Waiting)
  }

  function Perform(w: World, s: Step): World
    requires CanStep(w, s)
  {
    match s
    case ConnectTakesEvents => w.(connect := Taken)
    case ConnectWritesStatus => w.(connect := StatusWritten, status := SessionState.Signaling)
    case ConnectStartsLoops => w.(connect := LoopsStarted)
    case Broadcast(states) => w.(signalLog := w.signalLog + states)
    case SignalLoopSubscribes => w.(signalLoop := Waiting, signalCursor := |w.signalLog|)
    case SignalLoopReceives =>
      w.(signalLoop := Handling(w.signalLog[w.signalCursor]), signalCursor := w.signalCursor + 1)
    case SignalLoopHandles(commonTransport) => HandleSignal(w, w.signalLoop.state, commonTransport)
    case TransportSetupReturns(ok) =>
      w.(signalLoop := Waiting, status := if ok then w.status else Disconnected)
    case TransportChanges(s) => w.(transportLog := w.transportLog + [s])
    case TransportLoopSubscribes => w.(transportLoop := TransportWaiting, transportCursor := |w.transportLog|)
    case TransportLoopReceives =>
      w.(transportLoop := TransportHandling(w.transportLog[w.transportCursor]), transportCursor := w.transportCursor + 1)
    case TransportLoopHandles =>
      (match w.transportLoop.observed
       case TransportConnected => w.(transportLoop := TransportWaiting, status := Connected)
       case TransportFailed => w.(transportLoop := Returned, status := Disconnected)
       case _ => w.(transportLoop := TransportWaiting))
    case WaiterSeesConnected => w.(seenConnected := w.seenConnected + 1)
    case WaiterWrites => w.(seenConnected := w.seenConnected - 1, status := Connected)
    case WaiterFails => w.(status := Disconnected)
    case Closes => w.(status := Disconnected)
  }

  ghost predicate Next(w: World, w': World) {
    exists s :: CanStep(w, s) && Perform(w, s) == w'
  }

  ghost predicate IsRun(run: seq<World>) {
    Runs.IsRun(NEW_WORLD, Next, run)
  }

  // ----- the invariant

  predicate SignalOk(w: World) {
    && w.signalCursor <= |w.signalLog|
    && (w.signalLoop == NotPolled ==> w.signalCursor == 0)
    && (w.signalLoop.Handling? ==> w.signalCursor > 0 && w.signalLoop.state == w.signalLog[w.signalCursor - 1])
    && (w.connect != LoopsStarted ==> w.signalLoop == NotPolled && w.transportLoop == TransportNotPolled && w.signalLog == [])
  }

  /** How many broadcast states the signal loop is done with. */
  function Handled(w: World): int {
    if w.signalLoop.Handling? then w.signalCursor - 1 else w.signalCursor
  }

  /** The transport was set up on handling an `Encrypted`, by a loop that `connect` started. */
  predicate SetUpOk(w: World) {
    && (w.setUp ==> w.connect == LoopsStarted && exists e :: 0 <= e < Handled(w) <= |w.signalLog| && w.signalLog[e] == S.Encrypted)
    && (!w.setUp ==> forall s :: s in w.transportLog ==> s == Standby)
  }

  predicate StatusOk(w: World) {
    && w.transportCursor <= |w.transportLog|
    && (w.transportLoop.TransportHandling? ==> w.transportLoop.observed in w.transportLog)
    && (w.seenConnected > 0 || w.status == Connected ==> w.setUp)
  }

  predicate Inv(w: World) {
    SignalOk(w) && SetUpOk(w) && StatusOk(w)
  }

  lemma StepKeepsSignal(w: World, s: Step)
    requires Inv(w) && CanStep(w, s)
    ensures SignalOk(Perform(w, s))
  {
  }

  lemma StepKeepsSetUp(w: World, s: Step)
    requires Inv(w) && CanStep(w, s)
    ensures SetUpOk(Perform(w, s))
  {
    var w' := Perform(w, s);
    if w.setUp {
      var e :| 0 <= e < Handled(w) <= |w.signalLog| && w.signalLog[e] == S.Encrypted;
      assert w'.signalLog[e] == S.Encrypted && Handled(w) <= Handled(w');
    } else if w'.setUp {
      assert w'.signalLog[w.signalCursor - 1] == S.Encrypted;
    }
  }

  lemma StepKeepsStatus(w: World, s: Step)
    requires Inv(w) && CanStep(w, s)
    ensures StatusOk(Perform(w, s))
  {
  }

  lemma StepKeepsInv(w: World, s: Step)
    requires Inv(w) && CanStep(w, s)
    ensures Inv(Perform(w, s))
  {
    StepKeepsSignal(w, s);
    StepKeepsSetUp(w, s);
    StepKeepsStatus(w, s);
  }

  /** Logs only grow, the signal loop only goes on, and what was set up stays so. */
  predicate Later(w: World, w': World) {
    && w.signalLog <= w'.signalLog && Handled(w) <= Handled(w') && w.transportLog <= w'.transportLog
    && (w.setUp ==> w'.setUp) && (w.connect == LoopsStarted ==> w'.connect == LoopsStarted)
  }

  lemma StepIsLater(w: World, s: Step)
    requires Inv(w) && CanStep(w, s)
    ensures Later(w, Perform(w, s))
  {
  }

  lemma NextKeepsInv(w: World, w': World)
    requires Inv(w) && Next(w, w')
    ensures Inv(w') && Later(w, w')
  {
    var s :| CanStep(w, s) && Perform(w, s) == w';
    StepKeepsInv(w, s);
    StepIsLater(w, s);
  }

  lemma RunIsLater(run: seq<World>, m: nat, n: nat)
    requires IsRun(run) && m <= n < |run|
    ensures Inv(run[m]) && Inv(run[n]) && Later(run[m], run[n])
  {
    forall w, w' | Inv(w) && Next(w, w') ensures Inv(w') && Later(w, w') {
      NextKeepsInv(w, w');
    }
    Runs.RelationHolds(NEW_WORLD, Next, Inv, Later, run, m, n);
    Runs.InvariantHolds(NEW_WORLD, Next, Inv, run, m);
  }

  // ----- exactly when a connected session goes back

  predicate Linked(s: SessionState) {
    s == Connected || s == Disconnected
  }

  /** The signal loop handles a state of the handshake between moments `k` and `k + 1`. */
  predicate HandlesHandshake(run: seq<World>, k: int) {
    && 0 <= k < |run| - 1 && run[k].signalLoop.Handling? && run[k + 1].signalLoop != run[k].signalLoop
    && IsHandshake(run[k].signalLoop.state)
  }

  predicate IsHandshake(s: S.SignalState) {
    s in {S.Ready, S.Handshake, S.HandshakePartial}
  }

  lemma UnlinkingStep(w: World, s: Step)
    requires Inv(w) && CanStep(w, s) && w.setUp && Linked(w.status) && !Linked(Perform(w, s).status)
    ensures w.signalLoop.Handling? && IsHandshake(w.signalLoop.state) && Perform(w, s).signalLoop != w.signalLoop
  {
  }

  lemma UnlinkingNext(w: World, w': World)
    requires Inv(w) && Next(w, w') && w.setUp && Linked(w.status) && !Linked(w'.status)
    ensures w.signalLoop.Handling? && IsHandshake(w.signalLoop.state) && w'.signalLoop != w.signalLoop
  {
    var s :| CanStep(w, s) && Perform(w, s) == w';
    UnlinkingStep(w, s);
  }

  lemma UnlinkedByHandshake(run: seq<World>, m: nat, n: nat) returns (k: nat)
    requires IsRun(run) && m <= n < |run| && run[m].setUp && Linked(run[m].status) && !Linked(run[n].status)
    ensures m <= k < n && HandlesHandshake(run, k)
  {
    k := Runs.LastBefore(run, (w: World) => Linked(w.status), m, n);
    RunIsLater(run, m, k);
    UnlinkingNext(run[k], run[k + 1]);
  }

  lemma HandshakeUnlinks(run: seq<World>, k: nat)
    requires IsRun(run) && HandlesHandshake(run, k)
    ensures !Linked(run[k + 1].status)
  {
    assert Next(run[k], run[k + 1]);
    var s :| CanStep(run[k], s) && Perform(run[k], s) == run[k + 1];
  }

  /** In every run, whatever signaling broadcasts: a connected session has handled
      an `Encrypted`, and from then on its status is something other than `Connected`
      and `Disconnected` at some moment if and only if the signal loop handles a
      `Ready`, `Handshake` or `HandshakePartial` after it. */
  lemma ConnectedRegressesExactly(run: seq<World>, m: nat)
    requires IsRun(run) && m < |run| && run[m].status == Connected
    ensures exists e :: 0 <= e < Handled(run[m]) <= |run[m].signalLog| && run[m].signalLog[e] == S.Encrypted
    ensures (exists n :: m <= n < |run| && !Linked(run[n].status)) <==> (exists k :: m <= k && HandlesHandshake(run, k))
  {
    RunIsLater(run, m, m);
    if n :| m <= n < |run| && !Linked(run[n].status) {
      var k := UnlinkedByHandshake(run, m, n);
    }
    if k :| m <= k && HandlesHandshake(run, k) {
      HandshakeUnlinks(run, k);
      assert m <= k + 1 < |run| && !Linked(run[k + 1].status);
    }
  }

  // ----- runs, step by step

  lemma Advance(run: seq<World>, s: Step) returns (longer: seq<World>)
    requires IsRun(run) && CanStep(run[|run| - 1], s)
    ensures IsRun(longer) && longer == run + [Perform(run[|run| - 1], s)]
  {
    var last := run[|run| - 1];
    longer := run + [Perform(last, s)];
    assert Next(last, longer[|run|]);
    Runs.Extend(NEW_WORLD, Next, run, longer[|run|]);
  }

  const SUBSCRIBED := NEW_WORLD.(connect := LoopsStarted, signalLoop := Waiting, status := SessionState.Signaling)

  /** `connect` was called and the signal loop has subscribed. */
  lemma SubscribedRun() returns (run: seq<World>)
    ensures IsRun(run) && run[|run| - 1] == SUBSCRIBED
  {
    run := [NEW_WORLD];
    run := Advance(run, ConnectTakesEvents);
    run := Advance(run, ConnectWritesStatus);
    run := Advance(run, ConnectStartsLoops);
    run := Advance(run, SignalLoopSubscribes);
  }

  const CONNECTED :=
    SUBSCRIBED.(signalLog := [S.Encrypted], signalCursor := 1, setUp := true, transportLog := [TransportConnected], status := Connected)

  lemma ConnectedRun() returns (run: seq<World>)
    ensures IsRun(run) && run[|run| - 1] == CONNECTED
  {
    run := SubscribedRun();
    run := Advance(run, Broadcast([S.Encrypted]));
    run := Advance(run, SignalLoopReceives);
    run := Advance(run, SignalLoopHandles(true));
    run := Advance(run, TransportSetupReturns(true));
    run := Advance(run, TransportChanges(TransportConnected));
    run := Advance(run, WaiterSeesConnected);
    run := Advance(run, WaiterWrites);
  }

  /** A run in which `Handshake` is broadcast after `Encrypted`, and the status goes
      from `Connected` back to `Linking`. */
  lemma LateHandshakeUnlinks() returns (run: seq<World>, m: nat)
    ensures IsRun(run) && m < |run| - 1 && run[m].status == Connected && run[|run| - 1].status == Linking
    ensures run[|run| - 1].signalLog == [S.Encrypted, S.Handshake]
  {
    run := ConnectedRun();
    m := |run| - 1;
    run := Advance(run, Broadcast([S.Handshake]));
    run := Advance(run, SignalLoopReceives);
    run := Advance(run, SignalLoopHandles(true));
  }

  // ----- what each loop writes

  /** The signal loop shows each state that it handles: `Ready` as ready, a handshake as
      linking, a failure or an encryption without a common transport as disconnected. */
  lemma HandledStateShows(w: World, commonTransport: bool)
    requires CanStep(w, SignalLoopHandles(commonTransport))
    ensures var (w', s) := (Perform(w, SignalLoopHandles(commonTransport)), w.signalLoop.state);
            && (s == S.Ready ==> w'.status == SessionState.Ready)
            && (s == S.Handshake || s == S.HandshakePartial ==> w'.status == Linking)
            && (s == S.Error || (s == S.Encrypted && !commonTransport) ==> w'.status == Disconnected)
            && (s in {S.Standby, S.Connecting} || (s == S.Encrypted && commonTransport) ==> w'.status == w.status)
            && (w'.setUp <==> w.setUp || (s == S.Encrypted && commonTransport))
            && w'.signalLoop == (if s == S.Encrypted && commonTransport then InTransportSetup else Waiting)
            && w'.transportLog == w.transportLog && w'.signalCursor == w.signalCursor
  {
  }

  /** The transport loop shows a connection and a failure, and ends after a failure; a
      failed setup shows as disconnected, and `connect` as signaling. */
  lemma TransportStateShows(w: World)
    ensures w.transportLoop.TransportHandling? ==>
              var (w', s) := (Perform(w, TransportLoopHandles), w.transportLoop.observed);
              && w'.status == (if s == TransportConnected then Connected else if s == TransportFailed then Disconnected else w.status)
              && (w'.transportLoop == Returned <==> s == TransportFailed)
    ensures w.signalLoop == InTransportSetup ==>
              && Perform(w, TransportSetupReturns(false)).status == Disconnected
              && Perform(w, TransportSetupReturns(true)).status == w.status
    ensures w.connect == Taken ==> Perform(w, ConnectWritesStatus).status == SessionState.Signaling
    ensures w.seenConnected > 0 ==> Perform(w, WaiterWrites).status == Connected
    ensures TransportFailed in w.transportLog ==> Perform(w, WaiterFails).status == Disconnected
    ensures Perform(w, Closes).status == Disconnected
  {
  }

  /** And what a status shows has happened: no other status is ever written without it. */
  lemma StatusShowsWhatHappened(run: seq<World>, n: nat)
    requires IsRun(run) && n < |run|
    ensures var w := run[n];
            && (w.status == SessionState.Ready ==> HasHandled(w, S.Ready))
            && (w.status == Linking ==> HasHandled(w, S.Handshake) || HasHandled(w, S.HandshakePartial))
            && (w.status == Connected ==> TransportConnected in w.transportLog)
            && (w.status == SessionState.Signaling ==> w.connect in {StatusWritten, LoopsStarted})
  {
    var inv := (w: World) => Inv(w) && Shows(w);
    forall w, w' | inv(w) && Next(w, w') ensures inv(w') {
      var s :| CanStep(w, s) && Perform(w, s) == w';
      StepKeepsInv(w, s);
      StepStillShows(w, s);
    }
    Runs.InvariantHolds(NEW_WORLD, Next, inv, run, n);
  }

  predicate HasHandled(w: World, s: S.SignalState) {
    exists e :: 0 <= e < Handled(w) <= |w.signalLog| && w.signalLog[e] == s
  }

  predicate Shows(w: World) {
    && (w.status == SessionState.Ready ==> HasHandled(w, S.Ready))
    && (w.status == Linking ==> HasHandled(w, S.Handshake) || HasHandled(w, S.HandshakePartial))
    && (w.status == Connected || w.seenConnected > 0 ==> TransportConnected in w.transportLog)
    && (w.status == SessionState.Signaling ==> w.connect in {StatusWritten, LoopsStarted})
  }

  lemma StillHandled(w: World, st: Step, s: S.SignalState)
    requires Inv(w) && CanStep(w, st) && HasHandled(w, s)
    ensures HasHandled(Perform(w, st), s)
  {
    var e :| 0 <= e < Handled(w) <= |w.signalLog| && w.signalLog[e] == s;
    StepKeepsInv(w, st);
    StepIsLater(w, st);
    assert Perform(w, st).signalLog[e] == s;
  }

  lemma StepStillShows(w: World, s: Step)
    requires Inv(w) && Shows(w) && CanStep(w, s)
    ensures Shows(Perform(w, s))
  {
    var w' := Perform(w, s);
    forall state | HasHandled(w, state) ensures HasHandled(w', state) {
      StillHandled(w, s, state);
    }
    if s.SignalLoopHandles? {
      HandledStateShows(w, s.commonTransport);
      assert w'.signalLog[w.signalCursor - 1] == w.signalLoop.state;
      assert HasHandled(w', w.signalLoop.state);
    }
  }

  /** A receiver reads what is broadcast after it subscribed, from there on, one by one. */
  lemma ReceiversReadInOrder(w: World)
    ensures CanStep(w, SignalLoopSubscribes) ==> Perform(w, SignalLoopSubscribes).signalCursor == |w.signalLog|
    ensures CanStep(w, SignalLoopReceives) ==>
              && Perform(w, SignalLoopReceives).signalLoop == Handling(w.signalLog[w.signalCursor])
              && Perform(w, SignalLoopReceives).signalCursor == w.signalCursor + 1
    ensures CanStep(w, TransportLoopSubscribes) ==> Perform(w, TransportLoopSubscribes).transportCursor == |w.transportLog|
    ensures CanStep(w, TransportLoopReceives) ==>
              && Perform(w, TransportLoopReceives).transportLoop == TransportHandling(w.transportLog[w.transportCursor])
              && Perform(w, TransportLoopReceives).transportCursor == w.transportCursor + 1
  {
  }
}
