/**
 The loops of `LinkLoops` over one end of `Signaling`, whose handlers are atomic:
 what the order of its states gives for the session's status.
 */
module LinkStatus {
  import opened Common
  import opened Wire
  import S = Signaling
  import L = LinkLoops
  import Runs
  import opened SessionStates

  datatype World = World(node: S.Node, loops: L.World)

  const NEW_WORLD := World(S.NEW_NODE, L.NEW_WORLD)

  datatype Step = SignalEvent(event: S.Event) | Loop(step: L.Step)

  /** Signaling is set up only by `connect`, and only signaling broadcasts its states. */
  predicate CanStep(w: World, s: Step) {
    match s
    case SignalEvent(event) => S.Enabled(w.node, event) && (event.SetupStarts? ==> w.loops.connect == L.LoopsStarted)
    case Loop(step) => !step.Broadcast? && L.CanStep(w.loops, step)
  }

  function Perform(me: S.Properties, w: World, s: Step): World
    requires CanStep(w, s)
  {
    match s
    case SignalEvent(event) =>
      var node := S.Apply(me, w.node, event).0;
      World(node, w.loops.(signalLog := node.end.broadcasts))
    case Loop(step) => w.(loops := L.Perform(w.loops, step))
  }

  ghost predicate Next(me: S.Properties, w: World, w': World) {
    exists s :: CanStep(w, s) && Perform(me, w, s) == w'
  }

  ghost function NextOf(me: S.Properties): (World, World) -> bool {
    (w, w') => Next(me, w, w')
  }

  ghost predicate IsRun(me: S.Properties, run: seq<World>) {
    Runs.IsRun(NEW_WORLD, NextOf(me), run)
  }

  // ----- the invariant

  predicate SignalOk(me: S.Properties, w: World) {
    && S.NodeInv(me, w.node)
    && w.loops.signalLog == w.node.end.broadcasts
    && (w.loops.connect != L.LoopsStarted ==> w.node.setup == S.NotStarted)
  }

  /** Once the transport was set up, the signal loop has consumed `Encrypted`,
      which is the last state that signaling ever broadcasts. */
  predicate SetUpOk(w: World) {
    w.loops.setUp ==>
      && w.node.end.state == S.Encrypted && w.loops.signalCursor == |w.loops.signalLog|
      && w.loops.signalLoop in {L.Waiting, L.InTransportSetup}
  }

  predicate Inv(me: S.Properties, w: World) {
    SignalOk(me, w) && L.Inv(w.loops) && SetUpOk(w)
  }

  /** `Encrypted` is broadcast last. */
  lemma EncryptedIsLast(e: S.End, i: nat)
    requires S.History(e) && i < |e.broadcasts| && e.broadcasts[i] == S.Encrypted
    ensures i == |e.broadcasts| - 1 && e.state == S.Encrypted
  {
  }

  /** What a signaling event broadcasts is a broadcast of the loops. */
  function Projected(me: S.Properties, w: World, s: Step): L.Step
    requires CanStep(w, s)
  {
    match s
    case SignalEvent(event) =>
      var log := S.Apply(me, w.node, event).0.end.broadcasts;
      L.Broadcast(if |w.loops.signalLog| <= |log| then log[|w.loops.signalLog|..] else [])
    case Loop(step) => step
  }

  lemma StepProjects(me: S.Properties, w: World, s: Step)
    requires Inv(me, w) && CanStep(w, s)
    ensures L.CanStep(w.loops, Projected(me, w, s))
    ensures L.Perform(w.loops, Projected(me, w, s)) == Perform(me, w, s).loops
  {
    if s.SignalEvent? {
      S.NodeInvPreserved(me, w.node, s.event);
      S.EventEvolves(me, w.node, s.event);
      var log, log' := w.loops.signalLog, Perform(me, w, s).loops.signalLog;
      assert log' == log + log'[|log|..];
    }
  }

  lemma SignalEventKeepsInv(me: S.Properties, w: World, event: S.Event)
    requires Inv(me, w) && CanStep(w, SignalEvent(event))
    ensures SignalOk(me, Perform(me, w, SignalEvent(event))) && SetUpOk(Perform(me, w, SignalEvent(event)))
  {
    S.NodeInvPreserved(me, w.node, event);
    S.EventEvolves(me, w.node, event);
  }

  /** Handling a state sets the transport up only when `Encrypted` was consumed. */
  lemma HandlingKeepsInv(me: S.Properties, w: World, commonTransport: bool)
    requires Inv(me, w) && CanStep(w, Loop(L.SignalLoopHandles(commonTransport)))
    ensures SetUpOk(Perform(me, w, Loop(L.SignalLoopHandles(commonTransport))))
  {
    if w.loops.signalLoop.state == S.Encrypted {
      EncryptedIsLast(w.node.end, w.loops.signalCursor - 1);
    }
  }

  lemma LoopKeepsInv(me: S.Properties, w: World, step: L.Step)
    requires Inv(me, w) && CanStep(w, Loop(step))
    ensures SignalOk(me, Perform(me, w, Loop(step))) && SetUpOk(Perform(me, w, Loop(step)))
  {
    assert Perform(me, w, Loop(step)).node == w.node;
    if step.SignalLoopHandles? {
      HandlingKeepsInv(me, w, step.commonTransport);
    }
  }

  lemma StepKeepsInv(me: S.Properties, w: World, s: Step)
    requires Inv(me, w) && CanStep(w, s)
    ensures Inv(me, Perform(me, w, s))
  {
    StepProjects(me, w, s);
    L.StepKeepsInv(w.loops, Projected(me, w, s));
    match s
    case SignalEvent(event) => SignalEventKeepsInv(me, w, event);
    case Loop(step) => LoopKeepsInv(me, w, step);
  }

  predicate SignalingFailed(w: World) {
    w.node.end.state == S.Error
  }

  /** Signaling has finished, its loop is through with it, and no transport was set up. */
  predicate Abandoned(w: World) {
    S.Terminal(w.node.end.state) && w.loops.signalLoop == L.Waiting && w.loops.signalCursor == |w.loops.signalLog|
    && !w.loops.setUp
  }

  /** Having set the transport up, signaling having failed, and having no transport
      to set up are for good. */
  predicate Stays(w: World, w': World) {
    && (w.loops.setUp ==> w'.loops.setUp) && (SignalingFailed(w) ==> SignalingFailed(w'))
    && (Abandoned(w) ==> Abandoned(w'))
  }

  lemma NextKeepsInv(me: S.Properties, w: World, w': World)
    requires Inv(me, w) && Next(me, w, w')
    ensures Inv(me, w') && Stays(w, w') && L.Next(w.loops, w'.loops)
  {
    var s :| CanStep(w, s) && Perform(me, w, s) == w';
    StepKeepsInv(me, w, s);
    StepProjects(me, w, s);
    if s.SignalEvent? {
      S.EventEvolves(me, w.node, s.event);
    }
  }

  // ----- what every run promises

  lemma RunIsOk(me: S.Properties, run: seq<World>, m: nat, n: nat)
    requires IsRun(me, run) && m <= n < |run|
    ensures Inv(me, run[m]) && Inv(me, run[n]) && Stays(run[m], run[n])
  {
    var inv := (w: World) => Inv(me, w);
    var rel := (w: World, w': World) => Stays(w, w');
    forall w, w' | inv(w) && NextOf(me)(w, w') ensures inv(w') && rel(w, w') {
      NextKeepsInv(me, w, w');
    }
    Runs.RelationHolds(NEW_WORLD, NextOf(me), inv, rel, run, m, n);
    Runs.InvariantHolds(NEW_WORLD, NextOf(me), inv, run, m);
  }

  function LoopsOf(run: seq<World>): seq<L.World> {
    seq(|run|, i requires 0 <= i < |run| => run[i].loops)
  }

  /** What holds of the loops in every run, whatever is broadcast, holds here. */
  lemma RunProjects(me: S.Properties, run: seq<World>)
    requires IsRun(me, run)
    ensures L.IsRun(LoopsOf(run))
  {
    var loops := LoopsOf(run);
    forall i, j | 0 <= i < j < |loops| && j == i + 1 ensures L.Next(loops[i], loops[j]) {
      RunIsOk(me, run, i, i);
      assert NextOf(me)(run[i], run[j]);
      NextKeepsInv(me, run[i], run[j]);
    }
  }

  /** Once a session is connected, its status never goes back to an earlier one. */
  lemma ConnectedNeverRegresses(me: S.Properties, run: seq<World>, m: nat, n: nat)
    requires IsRun(me, run) && m <= n < |run| && run[m].loops.status == Connected
    ensures run[n].loops.status in {Connected, Disconnected}
    ensures run[m].node.end.state == S.Encrypted && run[n].node.end.state == S.Encrypted
  {
    var loops := LoopsOf(run);
    RunProjects(me, run);
    RunIsOk(me, run, m, n);
    L.ConnectedRegressesExactly(loops, m);
    forall k | m <= k ensures !L.HandlesHandshake(loops, k) {
      if k < |run| - 1 {
        RunIsOk(me, run, m, k);
      }
    }
    assert L.Linked(loops[n].status);
  }

  /** The 32 slots of the signal state receiver never overflow, so the loop is
      never ended by a lag. */
  lemma SignalLoopNeverLags(me: S.Properties, run: seq<World>, n: nat)
    requires IsRun(me, run) && n < |run|
    ensures |run[n].loops.signalLog| - run[n].loops.signalCursor <= 5
  {
    RunIsOk(me, run, n, n);
    S.RanksBoundLength(run[n].node.end.broadcasts);
  }

  /** After signaling failed, or ended without a common transport, the transport is
      never set up, so it never shows a state but `Standby`, which its teardown writes. */
  lemma FailedSignalingLeavesTransportIdle(me: S.Properties, run: seq<World>, m: nat, n: nat)
    requires IsRun(me, run) && m <= n < |run| && (SignalingFailed(run[m]) || Abandoned(run[m]))
    ensures forall s :: s in run[n].loops.transportLog ==> s == L.Standby
  {
    RunIsOk(me, run, m, n);
  }

  // ----- three ways to `Disconnected` that the transport does not show

  datatype Cause = SignalingFails | NoCommonTransport | TransportSetupFails

  lemma Advance(me: S.Properties, run: seq<World>, s: Step) returns (longer: seq<World>)
    requires IsRun(me, run) && CanStep(run[|run| - 1], s)
    ensures IsRun(me, longer) && longer == run + [Perform(me, run[|run| - 1], s)]
  {
    var last := run[|run| - 1];
    longer := run + [Perform(me, last, s)];
    assert NextOf(me)(last, longer[|run|]);
    Runs.Extend(NEW_WORLD, NextOf(me), run, longer[|run|]);
  }

  /** The signal loop reads the next state and handles it. */
  lemma Consume(me: S.Properties, run: seq<World>, commonTransport: bool) returns (longer: seq<World>)
    requires IsRun(me, run)
    requires var l := run[|run| - 1].loops; l.signalLoop == L.Waiting && l.signalCursor < |l.signalLog|
    ensures IsRun(me, longer) && run <= longer && |longer| == |run| + 2
    ensures var (w, l) := (run[|run| - 1], run[|run| - 1].loops);
            longer[|longer| - 1] ==
              w.(loops := L.HandleSignal(l.(signalLoop := L.Handling(l.signalLog[l.signalCursor]), signalCursor := l.signalCursor + 1),
                                         l.signalLog[l.signalCursor], commonTransport))
  {
    longer := Advance(me, run, Loop(L.SignalLoopReceives));
    longer := Advance(me, longer, Loop(L.SignalLoopHandles(commonTransport)));
  }

  const SUBSCRIBED := World(S.NEW_NODE, L.SUBSCRIBED)

  lemma SubscribedRun(me: S.Properties) returns (run: seq<World>)
    ensures IsRun(me, run) && run[|run| - 1] == SUBSCRIBED
  {
    run := [NEW_WORLD];
    run := Advance(me, run, Loop(L.ConnectTakesEvents));
    run := Advance(me, run, Loop(L.ConnectWritesStatus));
    run := Advance(me, run, Loop(L.ConnectStartsLoops));
    run := Advance(me, run, Loop(L.SignalLoopSubscribes));
  }

  /** A client in its handshake, whose loop has followed. */
  function ClientLinking(): World {
    var log := [S.Connecting, S.Ready, S.Handshake];
    World(S.Node(S.End(S.Handshake, None, None, Some(S.FlashOut()), true, log, []), S.Finished, false),
          L.SUBSCRIBED.(signalLog := log, signalCursor := 3, status := Linking))
  }

  lemma LinkingRun(me: S.Properties) returns (run: seq<World>)
    requires !me.isHost && me.secret.Some?
    ensures IsRun(me, run) && run[|run| - 1] == ClientLinking()
  {
    run := SubscribedRun(me);
    run := Advance(me, run, SignalEvent(S.SetupStarts));
    run := Advance(me, run, SignalEvent(S.SetupFinishes(true)));
    assert run[|run| - 1] == World(ClientLinking().node, L.SUBSCRIBED.(signalLog := ClientLinking().loops.signalLog));
    run := Consume(me, run, true);
    run := Consume(me, run, true);
    run := Consume(me, run, true);
  }

  /** The client has gone on to `Encrypted`; its loop is at that state. */
  lemma EncryptedRun(me: S.Properties, hostKey: Key) returns (run: seq<World>, m: nat)
    requires !me.isHost && me.secret.Some? && me.hash(hostKey) == me.h
    ensures IsRun(me, run) && m < |run| && run[m] == ClientLinking()
    ensures var (w, l) := (run[|run| - 1], run[|run| - 1].loops);
            && w.node.end.state == S.Encrypted && l.transportLog == [] && l.signalLoop == L.Waiting
            && !l.setUp && l.signalCursor == |l.signalLog| - 1 && l.signalLog[l.signalCursor] == S.Encrypted
  {
    run := LinkingRun(me);
    m := |run| - 1;
    var announced := S.Frame(HandshakePrefix, Client, S.Shared(me.secret.value, S.Pubkey(Some(hostKey))));
    var advertised := S.Frame(EncryptedPrefix, Client, S.Peer(hostKey, me.key, S.Capabilities(me.capabilities)));
    run := Advance(me, run, SignalEvent(S.Receive(announced, true)));
    assert run[|run| - 1].node.end.state == S.HandshakePartial;
    run := Advance(me, run, SignalEvent(S.Receive(advertised, true)));
    run := Consume(me, run, true);
  }

  /** For every client and each cause there is a run that goes from `Linking` to
      `Disconnected` while the transport shows nothing that ends a wait. */
  lemma DisconnectsUnshown(me: S.Properties, hostKey: Key, cause: Cause) returns (run: seq<World>, m: nat)
    requires !me.isHost && me.secret.Some? && me.hash(hostKey) == me.h
    ensures IsRun(me, run) && m < |run| && run[m] == ClientLinking()
    ensures run[|run| - 1].loops.status == Disconnected
    ensures run[|run| - 1].node.end.state == if cause.SignalingFails? then S.Error else S.Encrypted
    ensures cause.NoCommonTransport? ==> Abandoned(run[|run| - 1])
    ensures run[|run| - 1].loops.transportLog == if cause.TransportSetupFails? then [L.Connecting] else []
  {
    match cause {
      case SignalingFails =>
        run := LinkingRun(me);
        m := |run| - 1;
        run := Advance(me, run, SignalEvent(S.DeadlineElapses));
        run := Consume(me, run, true);
      case NoCommonTransport =>
        run, m := EncryptedRun(me, hostKey);
        run := Consume(me, run, false);
      case TransportSetupFails =>
        run, m := EncryptedRun(me, hostKey);
        run := Consume(me, run, true);
        run := Advance(me, run, Loop(L.TransportChanges(L.Connecting)));
        run := Advance(me, run, Loop(L.TransportSetupReturns(false)));
    }
  }
}
