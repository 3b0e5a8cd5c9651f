/**
 The loops of `LinkLoops` over end `i` of `FineGrain`, whose handlers are split:
 exactly when a connected session can fall back because a state is written late.
 */
module SplitStatus {
  import opened Common
  import opened Wire
  import F = FineGrain
  import S = Signaling
  import L = LinkLoops
  import T = LateWrites
  import H = SplitHandlers
  import Runs
  import opened SessionStates

  datatype World = World(net: F.World, loops: L.World)

  datatype Step = Signal(step: F.Step) | Loop(loop: L.Step)

  /** The end's `setup` is run by `connect`, which starts the loops first. */
  ghost predicate CanStep(ids: seq<S.Properties>, i: nat, w: World, s: Step) {
    match s
    case Signal(step) =>
      && |w.net.parties| == |ids| && F.Enabled(ids, w.net, step)
      && (step.RunSetup? && step.i == i ==> w.loops.connect == L.LoopsStarted)
    case Loop(loop) => !loop.Broadcast? && L.CanStep(w.loops, loop)
  }

  function WrittenBy(task: F.Task): seq<S.SignalState> {
    if task.Do? && task.next.WriteState? then [task.next.state] else []
  }

  /** The state that a step writes at end `i`, and so broadcasts. */
  function Written(i: nat, w: F.World, step: F.Step): seq<S.SignalState>
    requires i < |w.parties| && (step.RunTask? ==> step.i < |w.parties| && step.t < |w.parties[step.i].tasks|)
  {
    if step.RunTask? && step.i == i then WrittenBy(w.parties[i].tasks[step.t])
    else if step.RunSetup? && step.i == i then WrittenBy(w.parties[i].setup)
    else []
  }

  function Perform(ids: seq<S.Properties>, i: nat, w: World, s: Step): World
    requires i < |ids| && CanStep(ids, i, w, s)
  {
    match s
    case Signal(step) =>
      World(F.Apply(ids, w.net, step), w.loops.(signalLog := w.loops.signalLog + Written(i, w.net, step)))
    case Loop(loop) => w.(loops := L.Perform(w.loops, loop))
  }

  ghost predicate Next(ids: seq<S.Properties>, i: nat, w: World, w': World) {
    i < |ids| && exists s :: CanStep(ids, i, w, s) && Perform(ids, i, w, s) == w'
  }

  ghost function NextOf(ids: seq<S.Properties>, i: nat): (World, World) -> bool {
    (w, w') => Next(ids, i, w, w')
  }

  function NewWorld(ids: seq<S.Properties>): World {
    World(F.NewWorld(ids), L.NEW_WORLD)
  }

  ghost predicate IsRun(ids: seq<S.Properties>, i: nat, run: seq<World>) {
    Runs.IsRun(NewWorld(ids), NextOf(ids, i), run)
  }

  // ----- the invariant

  /** The end has not started `setup`, so nothing has happened to it. */
  predicate Unstarted(p: F.Party) {
    p.setup in {F.SETUP_TASK, F.Done} && p.tasks == [] && !p.subscribed && p.relyingKey.None?
  }

  /** What an end may write once it has written `Encrypted`. */
  predicate AfterEncrypted(me: S.Properties, s: S.SignalState) {
    s in {S.Encrypted, S.Error} || (me.isHost && s == S.Handshake)
  }

  predicate NoKeyWriter(p: F.Party) {
    p.relyingKey.Some? && !T.Early(p.state) && !T.WritePending(p, S.HandshakePartial)
  }

  predicate EndOk(me: S.Properties, p: F.Party, loops: L.World) {
    && (loops.connect != L.LoopsStarted ==> Unstarted(p))
    && LogOk(me, p, loops.signalLog)
    && (p.state == S.Encrypted ==> S.Encrypted in loops.signalLog)
  }

  ghost predicate Inv(ids: seq<S.Properties>, i: nat, w: World) {
    && i < |ids| && T.AllOrdered(ids, w.net) && L.Inv(w.loops)
    && EndOk(ids[i], w.net.parties[i], w.loops)
  }

  /** Once the key is stored and its handler through, no handler writes
      `HandshakePartial` any more. */
  lemma ActionNeedsNoKey(me: S.Properties, p: F.Party, task: F.Task, ok: bool)
    requires T.Shaped(me, task) && task.Do? && NoKeyWriter(p)
    ensures var o := F.Execute(me, p, task.next, task.rest, ok);
            && !T.IsPending(o.rest, S.HandshakePartial)
            && (o.started.Some? ==> !T.IsPending(o.started.value, S.HandshakePartial))
            && o.party.relyingKey.Some? && o.party.tasks == p.tasks
  {
    if task.next.ReadState? {
      T.BranchShape(me, p.state, task.next.frame, task.next.message);
    } else if T.Quiet(task) {
      T.QuietAction(me, p, task.next, task.rest, ok);
    }
  }

  lemma StepNeedsNoKey(ids: seq<S.Properties>, w: F.World, step: F.Step, i: nat)
    requires T.AllOrdered(ids, w) && F.Enabled(ids, w, step) && i < |ids| && NoKeyWriter(w.parties[i])
    ensures var p' := F.Apply(ids, w, step).parties[i];
            p'.relyingKey.Some? && !T.WritePending(p', S.HandshakePartial)
  {
    var p, p' := w.parties[i], F.Apply(ids, w, step).parties[i];
    if step.RunTask? && step.i == i {
      assert T.Shaped(ids[i], p.tasks[step.t]);
      ActionNeedsNoKey(ids[i], p, p.tasks[step.t], step.ok);
      forall u | 0 <= u < |p'.tasks| && u != step.t ensures !T.IsPending(p'.tasks[u], S.HandshakePartial) {
        assert u < |p.tasks| ==> p'.tasks[u] == p.tasks[u];
      }
    } else if step.RunSetup? && step.i == i {
      T.InertAction(ids[i], p, step.ok);
    } else if step.CancelTask? && step.i == i {
      assert forall u :: 0 <= u < |p.tasks| && u != step.t ==> p.tasks[step.t := F.Done][u] == p.tasks[u];
    }
  }

  /** The state of the end is the last one it wrote. */
  lemma StateIsWritten(ids: seq<S.Properties>, w: F.World, step: F.Step, i: nat)
    requires |w.parties| == |ids| && F.Enabled(ids, w, step) && i < |ids|
    ensures var (written, s) := (Written(i, w, step), F.Apply(ids, w, step).parties[i].state);
            if written == [] then s == w.parties[i].state else written == [s]
  {
  }

  /** Who writes `Encrypted` is not early, and no key handler is left to write. */
  lemma EncryptedIsWrittenLate(me: S.Properties, p: F.Party, task: F.Task)
    requires T.Ordered(me, p) && T.IsPending(task, S.Encrypted) && (task in p.tasks || task == p.setup)
    ensures !T.Early(p.state) && NoKeyWriter(p)
  {
    if task in p.tasks {
      var t :| 0 <= t < |p.tasks| && p.tasks[t] == task;
      assert !T.Early(p.state) ==> T.Shaped(me, p.tasks[t]) && T.Completing(p.tasks[t]);
      forall u | 0 <= u < |p.tasks| && !T.Early(p.state) ensures !T.IsPending(p.tasks[u], S.HandshakePartial) {
        assert T.Shaped(me, p.tasks[u]);
      }
    }
  }

  /** What `EndOk` says of the log. */
  predicate LogOk(me: S.Properties, p: F.Party, log: seq<S.SignalState>) {
    forall e :: 0 <= e < |log| && log[e] == S.Encrypted ==>
      NoKeyWriter(p) && forall k :: e <= k < |log| ==> AfterEncrypted(me, log[k])
  }

  lemma LogGrows(me: S.Properties, p: F.Party, p': F.Party, log: seq<S.SignalState>, written: seq<S.SignalState>)
    requires LogOk(me, p, log) && NoKeyWriter(p') && forall s :: s in written ==> AfterEncrypted(me, s)
    ensures LogOk(me, p', log + written)
  {
  }

  lemma LogStartsEncrypted(me: S.Properties, p': F.Party, log: seq<S.SignalState>, written: seq<S.SignalState>)
    requires S.Encrypted !in log && (S.Encrypted in written ==> NoKeyWriter(p') && written == [S.Encrypted])
    ensures LogOk(me, p', log + written)
  {
    var log' := log + written;
    assert forall e :: 0 <= e < |log| ==> log'[e] == log[e] && log[e] in log;
    forall e | |log| <= e < |log'| ensures log'[e] in written {
      assert log'[e] == written[e - |log|];
    }
  }

  lemma SignalKeepsLog(ids: seq<S.Properties>, i: nat, w: World, step: F.Step)
    requires Inv(ids, i, w) && CanStep(ids, i, w, Signal(step))
    ensures var w' := Perform(ids, i, w, Signal(step)); LogOk(ids[i], w'.net.parties[i], w'.loops.signalLog)
  {
    var (p, log, written) := (w.net.parties[i], w.loops.signalLog, Written(i, w.net, step));
    var p' := F.Apply(ids, w.net, step).parties[i];
    if S.Encrypted in log {
      assert NoKeyWriter(p);
      StepNeedsNoKey(ids, w.net, step, i);
      WrittenIsPending(ids, i, w.net, step);
      LogGrows(ids[i], p, p', log, written);
    } else {
      if S.Encrypted in written {
        EncryptedIsWrittenLate(ids[i], p, if step.RunTask? then p.tasks[step.t] else p.setup);
        StepNeedsNoKey(ids, w.net, step, i);
        WrittenIsPending(ids, i, w.net, step);
      }
      LogStartsEncrypted(ids[i], p', log, written);
    }
  }

  /** What is written late was pending. */
  lemma WrittenIsPending(ids: seq<S.Properties>, i: nat, w: F.World, step: F.Step)
    requires T.AllOrdered(ids, w) && F.Enabled(ids, w, step) && i < |ids| && NoKeyWriter(w.parties[i])
    ensures forall s :: s in Written(i, w, step) ==> T.WritePending(w.parties[i], s) && AfterEncrypted(ids[i], s)
    ensures !T.Early(F.Apply(ids, w, step).parties[i].state)
  {
    var p := w.parties[i];
    forall s | s in Written(i, w, step) ensures T.WritePending(p, s) && AfterEncrypted(ids[i], s) {
      assert step.RunTask? ==> T.IsPending(p.tasks[step.t], s);
      T.PendingStates(ids[i], p, s);
    }
    StateIsWritten(ids, w, step, i);
  }

  lemma SignalKeepsEnd(ids: seq<S.Properties>, i: nat, w: World, step: F.Step)
    requires Inv(ids, i, w) && CanStep(ids, i, w, Signal(step))
    ensures var w' := Perform(ids, i, w, Signal(step));
            EndOk(ids[i], w'.net.parties[i], w'.loops) && T.AllOrdered(ids, w'.net)
            && (w.loops.connect != L.LoopsStarted ==> Written(i, w.net, step) == [])
  {
    SignalKeepsLog(ids, i, w, step);
    StateIsWritten(ids, w.net, step, i);
    T.StepKeepsOrder(ids, w.net, step);
  }

  /** What a step broadcasts is a broadcast of the loops. */
  function Projected(ids: seq<S.Properties>, i: nat, w: World, s: Step): L.Step
    requires i < |w.net.parties|
    requires s.Signal? && s.step.RunTask? ==> s.step.i < |w.net.parties| && s.step.t < |w.net.parties[s.step.i].tasks|
  {
    match s
    case Signal(step) => L.Broadcast(Written(i, w.net, step))
    case Loop(loop) => loop
  }

  lemma StepKeepsInv(ids: seq<S.Properties>, i: nat, w: World, s: Step)
    requires Inv(ids, i, w) && CanStep(ids, i, w, s)
    ensures Inv(ids, i, Perform(ids, i, w, s))
    ensures L.CanStep(w.loops, Projected(ids, i, w, s))
    ensures L.Perform(w.loops, Projected(ids, i, w, s)) == Perform(ids, i, w, s).loops
  {
    if s.Signal? {
      SignalKeepsEnd(ids, i, w, s.step);
    }
    L.StepKeepsInv(w.loops, Projected(ids, i, w, s));
  }

  /** A late `Handshake` stays possible only while it is pending. */
  predicate Stays(i: nat, w: World, w': World) {
    && i < |w.net.parties| && i < |w'.net.parties|
    && w.loops.signalLog <= w'.loops.signalLog
    && (var p, p' := w.net.parties[i], w'.net.parties[i];
        NoKeyWriter(p) && !T.WritePending(p, S.Handshake) ==>
          && NoKeyWriter(p') && !T.WritePending(p', S.Handshake)
          && forall k :: |w.loops.signalLog| <= k < |w'.loops.signalLog| ==> w'.loops.signalLog[k] in {S.Encrypted, S.Error})
  }

  /** A signaling step that finds no late `Handshake` pending writes none and leaves none. */
  lemma SignalStays(ids: seq<S.Properties>, i: nat, w: F.World, step: F.Step)
    requires T.AllOrdered(ids, w) && F.Enabled(ids, w, step) && i < |ids|
    requires NoKeyWriter(w.parties[i]) && !T.WritePending(w.parties[i], S.Handshake)
    ensures var p' := F.Apply(ids, w, step).parties[i];
            NoKeyWriter(p') && !T.WritePending(p', S.Handshake)
    ensures forall s :: s in Written(i, w, step) ==> s in {S.Encrypted, S.Error}
  {
    StepNeedsNoKey(ids, w, step, i);
    WrittenIsPending(ids, i, w, step);
    T.StepPending(ids, w, step, i);
  }

  lemma StepStays(ids: seq<S.Properties>, i: nat, w: World, s: Step)
    requires Inv(ids, i, w) && CanStep(ids, i, w, s)
    ensures |Perform(ids, i, w, s).net.parties| == |ids| && Stays(i, w, Perform(ids, i, w, s))
  {
    if s.Signal? {
      T.StepKeepsOrder(ids, w.net, s.step);
      if NoKeyWriter(w.net.parties[i]) && !T.WritePending(w.net.parties[i], S.Handshake) {
        SignalStays(ids, i, w.net, s.step);
      }
      var log, written := w.loops.signalLog, Written(i, w.net, s.step);
      assert forall k :: |log| <= k < |log + written| ==> (log + written)[k] in written;
    } else {
      LoopKeepsLog(w.loops, s.loop);
    }
  }

  lemma LoopKeepsLog(l: L.World, s: L.Step)
    requires L.CanStep(l, s) && !s.Broadcast?
    ensures L.Perform(l, s).signalLog == l.signalLog
  {
  }

  lemma NextKeepsInv(ids: seq<S.Properties>, i: nat, w: World, w': World)
    requires Inv(ids, i, w) && Next(ids, i, w, w')
    ensures Inv(ids, i, w') && Stays(i, w, w') && L.Next(w.loops, w'.loops)
  {
    var s :| CanStep(ids, i, w, s) && Perform(ids, i, w, s) == w';
    StepKeepsInv(ids, i, w, s);
    StepStays(ids, i, w, s);
  }

  // ----- what every run promises

  lemma RunIsOk(ids: seq<S.Properties>, i: nat, run: seq<World>, m: nat, n: nat)
    requires IsRun(ids, i, run) && i < |ids| && m <= n < |run|
    ensures Inv(ids, i, run[m]) && Inv(ids, i, run[n]) && Stays(i, run[m], run[n])
  {
    var inv := (w: World) => Inv(ids, i, w);
    var rel := (w: World, w': World) => Stays(i, w, w');
    forall w, w' | inv(w) && NextOf(ids, i)(w, w') ensures inv(w') && rel(w, w') {
      NextKeepsInv(ids, i, w, w');
    }
    forall u, v, w | rel(u, v) && rel(v, w) ensures rel(u, w) {
      StaysOn(i, u, v, w);
    }
    Runs.RelationHolds(NewWorld(ids), NextOf(ids, i), inv, rel, run, m, n);
    Runs.InvariantHolds(NewWorld(ids), NextOf(ids, i), inv, run, m);
  }

  lemma StaysOn(i: nat, u: World, v: World, w: World)
    requires Stays(i, u, v) && Stays(i, v, w)
    ensures Stays(i, u, w)
  {
  }

  function LoopsOf(run: seq<World>): seq<L.World> {
    seq(|run|, k requires 0 <= k < |run| => run[k].loops)
  }

  lemma RunProjects(ids: seq<S.Properties>, i: nat, run: seq<World>)
    requires IsRun(ids, i, run) && i < |ids|
    ensures L.IsRun(LoopsOf(run))
  {
    var loops := LoopsOf(run);
    forall j, k | 0 <= j < k < |loops| && k == j + 1 ensures L.Next(loops[j], loops[k]) {
      RunIsOk(ids, i, run, j, j);
      assert NextOf(ids, i)(run[j], run[k]);
      NextKeepsInv(ids, i, run[j], run[k]);
    }
  }

  /** A handshake state that is handled once the session is connected comes later in
      the log than `Encrypted`, so it is a late `Handshake` of the host. */
  lemma OnlyLateHandshakes(ids: seq<S.Properties>, i: nat, run: seq<World>, m: nat, k: nat)
    requires IsRun(ids, i, run) && i < |ids| && m <= k && m < |run| && run[m].loops.status == Connected
    requires L.HandlesHandshake(LoopsOf(run), k)
    ensures ids[i].isHost && run[k].loops.signalLoop.state == S.Handshake
    ensures i < |run[m].net.parties| && NoKeyWriter(run[m].net.parties[i]) && L.Handled(run[m].loops) <= L.Handled(run[k].loops)
  {
    var loops := LoopsOf(run);
    RunProjects(ids, i, run);
    L.ConnectedRegressesExactly(loops, m);
    L.RunIsLater(loops, m, k);
    RunIsOk(ids, i, run, m, k);
    var e :| 0 <= e < L.Handled(loops[m]) <= |loops[m].signalLog| && loops[m].signalLog[e] == S.Encrypted;
    assert loops[k].signalLog[e] == S.Encrypted;
    assert AfterEncrypted(ids[i], loops[k].signalLog[loops[k].signalCursor - 1]);
  }

  /** With split handlers, in every run: a connected session falls back if and only
      if its loop handles a handshake state afterwards, which can only be a late
      `Handshake`, and only at the host. */
  lemma FallsBackExactly(ids: seq<S.Properties>, i: nat, run: seq<World>, m: nat)
    requires IsRun(ids, i, run) && i < |ids| && m < |run| && run[m].loops.status == Connected
    ensures (exists n :: m <= n < |run| && !L.Linked(run[n].loops.status))
       <==> (exists k :: m <= k && L.HandlesHandshake(LoopsOf(run), k))
    ensures forall k :: m <= k && L.HandlesHandshake(LoopsOf(run), k) ==>
              ids[i].isHost && run[k].loops.signalLoop.state == S.Handshake
  {
    var loops := LoopsOf(run);
    RunProjects(ids, i, run);
    L.ConnectedRegressesExactly(loops, m);
    if n :| m <= n < |run| && !L.Linked(run[n].loops.status) {
      assert !L.Linked(loops[n].status);
    }
    if k :| m <= k && L.HandlesHandshake(loops, k) {
      var n :| m <= n < |loops| && !L.Linked(loops[n].status);
      assert !L.Linked(run[n].loops.status);
    }
    forall k | m <= k && L.HandlesHandshake(loops, k) ensures ids[i].isHost && run[k].loops.signalLoop.state == S.Handshake {
      OnlyLateHandshakes(ids, i, run, m, k);
    }
  }

  /** A client's connected session never falls back, however its handlers are split. */
  lemma ClientNeverFallsBack(ids: seq<S.Properties>, i: nat, run: seq<World>, m: nat, n: nat)
    requires IsRun(ids, i, run) && i < |ids| && !ids[i].isHost && m <= n < |run| && run[m].loops.status == Connected
    ensures L.Linked(run[n].loops.status)
  {
    FallsBackExactly(ids, i, run, m);
  }

  // ----- exactly which connected sessions can still fall back

  ghost predicate CanFallBack(ids: seq<S.Properties>, i: nat, w: World) {
    exists more :: FallsBackBy(ids, i, w, more)
  }

  ghost predicate FallsBackBy(ids: seq<S.Properties>, i: nat, w: World, more: seq<World>) {
    Runs.IsRun(w, NextOf(ids, i), more) && !L.Linked(more[|more| - 1].loops.status)
  }

  /** A handshake state that the loop has still to handle. */
  predicate Unread(l: L.World) {
    exists k :: L.Handled(l) <= k < |l.signalLog| && 0 <= k && L.IsHandshake(l.signalLog[k])
  }

  lemma Continue(ids: seq<S.Properties>, i: nat, w: World, more: seq<World>, s: Step) returns (longer: seq<World>)
    requires i < |ids| && Runs.IsRun(w, NextOf(ids, i), more) && CanStep(ids, i, more[|more| - 1], s)
    ensures Runs.IsRun(w, NextOf(ids, i), longer) && longer == more + [Perform(ids, i, more[|more| - 1], s)]
  {
    var last := more[|more| - 1];
    var next := Perform(ids, i, last, s);
    assert NextOf(ids, i)(last, next);
    longer := more + [next];
    Runs.Extend(w, NextOf(ids, i), more, next);
  }

  /** How much the signal loop has still to do. */
  function Backlog(l: L.World): nat
    requires l.signalCursor <= |l.signalLog|
  {
    3 * (|l.signalLog| - l.signalCursor) + (if l.signalLoop.Handling? then 2 else if l.signalLoop == L.InTransportSetup then 1 else 0)
  }

  /** The loop's next step, with a common transport whose setup succeeds. */
  function LoopStep(l: L.World): L.Step {
    if l.signalLoop.Handling? then L.SignalLoopHandles(true)
    else if l.signalLoop == L.InTransportSetup then L.TransportSetupReturns(true)
    else L.SignalLoopReceives
  }

  lemma LoopGoesOn(l: L.World)
    requires L.Inv(l) && l.signalLoop != L.NotPolled && Backlog(l) > 0
    ensures L.CanStep(l, LoopStep(l))
    ensures var l' := L.Perform(l, LoopStep(l));
            && L.Inv(l') && l'.signalLog == l.signalLog && l'.signalLoop != L.NotPolled && Backlog(l') < Backlog(l)
            && l'.connect == l.connect && (l.setUp ==> l'.setUp)
            && (l.signalLoop == L.Handling(S.Encrypted) ==> l'.setUp)
            && (l.signalLoop.Handling? && L.IsHandshake(l.signalLoop.state) ==> !L.Linked(l'.status))
            && L.Handled(l') == (if l.signalLoop.Handling? then L.Handled(l) + 1 else L.Handled(l))
  {
    L.StepKeepsInv(l, LoopStep(l));
  }

  /** The loop reads on until it has handled a handshake state that was unread. */
  lemma {:induction false} ReadsHandshake(ids: seq<S.Properties>, i: nat, w: World, more: seq<World>)
    requires i < |ids| && Runs.IsRun(w, NextOf(ids, i), more)
    requires var l := more[|more| - 1].loops; L.Inv(l) && l.signalLoop != L.NotPolled && Unread(l)
    ensures CanFallBack(ids, i, w)
    decreases var l := more[|more| - 1].loops; Backlog(l)
  {
    var l := more[|more| - 1].loops;
    LoopGoesOn(l);
    var longer := Continue(ids, i, w, more, Loop(LoopStep(l)));
    if l.signalLoop.Handling? && L.IsHandshake(l.signalLoop.state) {
      assert FallsBackBy(ids, i, w, longer);
    } else {
      var k :| L.Handled(l) <= k < |l.signalLog| && 0 <= k && L.IsHandshake(l.signalLog[k]);
      assert Unread(L.Perform(l, LoopStep(l)));
      ReadsHandshake(ids, i, w, longer);
    }
  }

  /** Without a pending or unread handshake state, no continuation handles one. */
  lemma NothingLateIsHandled(ids: seq<S.Properties>, i: nat, run: seq<World>, n: nat, k: nat)
    requires IsRun(ids, i, run) && i < |ids| && n <= k && n < |run| && run[n].loops.status == Connected
    requires L.HandlesHandshake(LoopsOf(run), k)
    ensures i < |run[n].net.parties| && (T.WritePending(run[n].net.parties[i], S.Handshake) || Unread(run[n].loops))
  {
    OnlyLateHandshakes(ids, i, run, n, k);
    RunIsOk(ids, i, run, n, k);
    var l, l' := run[n].loops, run[k].loops;
    var q := l'.signalCursor - 1;
    assert l'.signalLog[q] == S.Handshake;
    if q < |l.signalLog| {
      assert l.signalLog[q] == S.Handshake && L.IsHandshake(l.signalLog[q]);
    }
  }

  lemma PendingIsBroadcast(ids: seq<S.Properties>, i: nat, w: World) returns (more: seq<World>)
    requires Inv(ids, i, w) && T.WritePending(w.net.parties[i], S.Handshake)
    ensures Runs.IsRun(w, NextOf(ids, i), more)
    ensures more[|more| - 1].loops == w.loops.(signalLog := w.loops.signalLog + [S.Handshake])
    ensures Inv(ids, i, more[|more| - 1])
  {
    var p := w.net.parties[i];
    var t :| 0 <= t < |p.tasks| && T.IsPending(p.tasks[t], S.Handshake);
    more := Continue(ids, i, w, [w], Signal(F.RunTask(i, t, true)));
    StepKeepsInv(ids, i, w, Signal(F.RunTask(i, t, true)));
  }

  /** Exactly which connected sessions can still fall back, in every reachable world
      with split handlers: those with a flash handler past its state read and before
      its write, and those whose loop has a handshake state still to handle. */
  lemma CanFallBackExactly(ids: seq<S.Properties>, i: nat, run: seq<World>, n: nat)
    requires IsRun(ids, i, run) && i < |ids| && n < |run| && run[n].loops.status == Connected
    ensures i < |run[n].net.parties|
    ensures CanFallBack(ids, i, run[n]) <==> T.WritePending(run[n].net.parties[i], S.Handshake) || Unread(run[n].loops)
  {
    RunIsOk(ids, i, run, n, n);
    var w := run[n];
    if T.WritePending(w.net.parties[i], S.Handshake) {
      var more := PendingIsBroadcast(ids, i, w);
      var l := more[|more| - 1].loops;
      assert L.IsHandshake(l.signalLog[|w.loops.signalLog|]) && Unread(l);
      ReadsHandshake(ids, i, w, more);
    } else if Unread(w.loops) {
      ReadsHandshake(ids, i, w, [w]);
    }
    if CanFallBack(ids, i, w) {
      var more :| FallsBackBy(ids, i, w, more);
      Runs.Join(NewWorld(ids), NextOf(ids, i), run, n, more);
      var joined := run[..n] + more;
      var last := |joined| - 1;
      assert joined[n] == w && joined[last] == more[|more| - 1];
      FallsBackExactly(ids, i, joined, n);
      var k :| n <= k && L.HandlesHandshake(LoopsOf(joined), k);
      NothingLateIsHandled(ids, i, joined, n, k);
    }
  }

  // ----- a host that does fall back

  /** `connect` was called and the signal loop has subscribed, before anything else. */
  lemma SubscribedRun(ids: seq<S.Properties>, i: nat) returns (run: seq<World>)
    requires i < |ids|
    ensures IsRun(ids, i, run) && run[|run| - 1] == World(F.NewWorld(ids), L.SUBSCRIBED)
  {
    run := [NewWorld(ids)];
    run := Continue(ids, i, NewWorld(ids), run, Loop(L.ConnectTakesEvents));
    run := Continue(ids, i, NewWorld(ids), run, Loop(L.ConnectWritesStatus));
    run := Continue(ids, i, NewWorld(ids), run, Loop(L.ConnectStartsLoops));
    run := Continue(ids, i, NewWorld(ids), run, Loop(L.SignalLoopSubscribes));
  }

  /** Every run of the ends happens under subscribed loops, which see what is written. */
  lemma {:induction false} Lift(ids: seq<S.Properties>, i: nat, net: seq<F.World>, n: nat) returns (run: seq<World>)
    requires F.IsRun(ids, net) && n < |net| && i < |ids|
    ensures IsRun(ids, i, run) && run[|run| - 1].net == net[n]
    ensures var l := run[|run| - 1].loops; l == L.SUBSCRIBED.(signalLog := l.signalLog)
  {
    if n == 0 {
      run := SubscribedRun(ids, i);
    } else {
      run := Lift(ids, i, net, n - 1);
      assert F.NextOf(ids)(net[n - 1], net[n]);
      var step :| F.Enabled(ids, net[n - 1], step) && F.Apply(ids, net[n - 1], step) == net[n];
      run := Continue(ids, i, NewWorld(ids), run, Signal(step));
    }
  }

  /** The loop reads everything; an `Encrypted` among it sets the transport up. */
  lemma {:induction false} ReadsAll(ids: seq<S.Properties>, i: nat, run: seq<World>) returns (longer: seq<World>)
    requires IsRun(ids, i, run) && i < |ids|
    requires var l := run[|run| - 1].loops; L.Inv(l) && l.signalLoop != L.NotPolled
    ensures IsRun(ids, i, longer) && longer[|longer| - 1].net == run[|run| - 1].net
    ensures var (l, l') := (run[|run| - 1].loops, longer[|longer| - 1].loops);
            && l'.signalLog == l.signalLog && L.Inv(l') && (l.setUp ==> l'.setUp)
            && ((exists e :: 0 <= e && L.Handled(l) <= e < |l.signalLog| && l.signalLog[e] == S.Encrypted) ==> l'.setUp)
    decreases var l := run[|run| - 1].loops; Backlog(l)
  {
    var l := run[|run| - 1].loops;
    if Backlog(l) == 0 {
      longer := run;
    } else {
      LoopGoesOn(l);
      longer := Continue(ids, i, NewWorld(ids), run, Loop(LoopStep(l)));
      var l1 := longer[|longer| - 1].loops;
      if e :| 0 <= e && L.Handled(l) <= e < |l.signalLog| && l.signalLog[e] == S.Encrypted {
        assert l1.setUp || (L.Handled(l1) <= e && l1.signalLog[e] == S.Encrypted);
      }
      longer := ReadsAll(ids, i, longer);
    }
  }

  /** Once the transport is set up, a waiting caller can connect the session. */
  lemma Connects(ids: seq<S.Properties>, i: nat, run: seq<World>) returns (longer: seq<World>)
    requires IsRun(ids, i, run) && i < |ids| && run[|run| - 1].loops.setUp
    ensures IsRun(ids, i, longer) && longer[|longer| - 1].net == run[|run| - 1].net
    ensures longer[|longer| - 1].loops.status == Connected
  {
    longer := Continue(ids, i, NewWorld(ids), run, Loop(L.TransportChanges(L.TransportConnected)));
    longer := Continue(ids, i, NewWorld(ids), longer, Loop(L.WaiterSeesConnected));
    longer := Continue(ids, i, NewWorld(ids), longer, Loop(L.WaiterWrites));
  }

  /** Every run of the ends to an encrypted end `i` happens in a session that gets connected. */
  lemma EncryptedConnects(ids: seq<S.Properties>, i: nat, net: seq<F.World>) returns (run: seq<World>)
    requires F.IsRun(ids, net) && i < |ids|
    requires var last := net[|net| - 1]; i < |last.parties| && last.parties[i].state == S.Encrypted
    ensures IsRun(ids, i, run) && run[|run| - 1].net == net[|net| - 1]
    ensures run[|run| - 1].loops.status == Connected
  {
    run := Lift(ids, i, net, |net| - 1);
    RunIsOk(ids, i, run, |run| - 1, |run| - 1);
    var log := run[|run| - 1].loops.signalLog;
    var e :| 0 <= e < |log| && log[e] == S.Encrypted;
    run := ReadsAll(ids, i, run);
    assert log[e] == S.Encrypted;
    run := Connects(ids, i, run);
  }

  /** For every host and client there is a run in which the host's session is
      connected, and can fall back. */
  lemma HostCanFallBack(ids: seq<S.Properties>) returns (run: seq<World>)
    requires H.HostAndClient(ids)
    ensures IsRun(ids, 0, run) && run[|run| - 1].loops.status == Connected
    ensures CanFallBack(ids, 0, run[|run| - 1])
  {
    var net := H.EncryptedWithLateFlash(ids);
    run := EncryptedConnects(ids, 0, net);
    assert T.IsPending(run[|run| - 1].net.parties[0].tasks[1], S.Handshake);
    CanFallBackExactly(ids, 0, run, |run| - 1);
  }
}
