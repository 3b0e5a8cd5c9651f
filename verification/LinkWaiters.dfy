/** Exactly when a caller of `wait_for_link` can be told of the link. */
module LinkWaiters {
  import opened Common
  import opened SessionStates
  import opened SessionSteps
  import L = LinkLoops
  import M = LinkStatus
  import S = Signaling

  /** The transport's current state is the one it broadcast last. */
  predicate IsConnected(w: L.World) {
    w.transportLog != [] && w.transportLog[|w.transportLog| - 1] == L.TransportConnected
  }

  predicate EndsLink(s: L.TransportState) {
    s == L.TransportConnected || s == L.TransportFailed
  }

  /** What a waiter that subscribed at position `c` may be shown in world `w` when it
      is at position `k`: the state there, or that it lagged up to there. */
  predicate LookOk(w: L.World, c: nat, k: nat, m: Moment) {
    && c <= k < |w.transportLog|
    && (m.item == StateItem(w.transportLog[k]) || m.item == Lagged)
    && m.connected == IsConnected(w)
  }

  /** The looks of a waiter between two moments of a run, in order. */
  ghost predicate ShownAt(run: seq<L.World>, c: nat, from: nat, n: nat, trace: seq<Moment>, looks: seq<nat>, at: seq<nat>) {
    && |looks| == |at| == |trace|
    && (forall j :: 0 <= j < |looks| ==> from <= looks[j] <= n)
    && (forall i, j :: 0 <= i < j < |looks| ==> looks[i] <= looks[j])
    && (forall i, j :: 0 <= i < j < |at| ==> at[i] < at[j])
    && n < |run| && forall j :: 0 <= j < |trace| && looks[j] < |run| ==> LookOk(run[looks[j]], c, at[j], trace[j])
  }

  ghost predicate Shown(run: seq<L.World>, c: nat, from: nat, n: nat, trace: seq<Moment>) {
    exists looks, at :: ShownAt(run, c, from, n, trace, looks, at)
  }

  /** Some looks between the moments `from` and `n` end the wait. */
  ghost predicate CanEnd(run: seq<L.World>, c: nat, from: nat, n: nat, s: Session, closing: bool)
    requires from < |run|
  {
    exists trace :: Shown(run, c, from, n, trace) && WaitForLink(s, IsConnected(run[from]), trace, closing).1 != None
  }

  /** The transport has broadcast an ending state since position `c`. */
  predicate EndsSince(w: L.World, c: nat) {
    exists k :: c <= k < |w.transportLog| && EndsLink(w.transportLog[k])
  }

  lemma ShownEnds(run: seq<L.World>, m: nat, from: nat, n: nat, trace: seq<Moment>, j: nat)
    requires L.IsRun(run) && m <= from <= n < |run| && j < |trace| && EndsWait(trace[j])
    requires Shown(run, |run[m].transportLog|, from, n, trace)
    ensures EndsSince(run[n], |run[m].transportLog|)
  {
    var c := |run[m].transportLog|;
    var looks, at :| ShownAt(run, c, from, n, trace, looks, at);
    assert LookOk(run[looks[j]], c, at[j], trace[j]);
    L.RunIsLater(run, looks[j], n);
    var log := run[looks[j]].transportLog;
    if trace[j].connected {
      assert EndsLink(run[n].transportLog[|log| - 1]);
    } else {
      assert EndsLink(run[n].transportLog[at[j]]);
    }
  }

  /** A waiter that reads all items from its subscription up to the ending one. */
  lemma ReadUpTo(run: seq<L.World>, c: nat, from: nat, n: nat, k: nat) returns (trace: seq<Moment>)
    requires from <= n < |run| && c <= k < |run[n].transportLog| && EndsLink(run[n].transportLog[k])
    ensures Shown(run, c, from, n, trace) && trace != [] && EndsWait(trace[|trace| - 1])
  {
    var w := run[n];
    var count := k - c + 1;
    trace := seq(count, j requires 0 <= j < count => Moment(StateItem(w.transportLog[c + j]), IsConnected(w)));
    var looks := seq(count, j => n);
    var at := seq(count, j requires 0 <= j < count => c + j);
    assert ShownAt(run, c, from, n, trace, looks, at);
    assert trace[count - 1].item == StateItem(w.transportLog[k]);
  }

  /** In every run, whatever signaling broadcasts: a waiter that subscribed at moment
      `m`, found the status undecided and looked at the transport at moment `from`,
      can have been told by moment `n` if and only if the transport was connected at
      `from`, or has since the subscription become connected or failed. */
  lemma WaitEndsExactly(run: seq<L.World>, m: nat, from: nat, n: nat, s: Session, closing: bool)
    requires L.IsRun(run) && m <= from <= n < |run| && s.status !in {Connected, Disconnected}
    ensures CanEnd(run, |run[m].transportLog|, from, n, s, closing)
       <==> IsConnected(run[from]) || EndsSince(run[n], |run[m].transportLog|)
  {
    var c, connected := |run[m].transportLog|, IsConnected(run[from]);
    if connected {
      assert ShownAt(run, c, from, n, [], [], []);
      assert WaitForLink(s, connected, [], closing).1 != None;
    } else if EndsSince(run[n], c) {
      var k :| c <= k < |run[n].transportLog| && EndsLink(run[n].transportLog[k]);
      var trace := ReadUpTo(run, c, from, n, k);
      assert WaitForLink(s, connected, trace, closing).1 != None;
    }
    if !connected && CanEnd(run, c, from, n, s, closing) {
      var trace :| Shown(run, c, from, n, trace) && WaitForLink(s, connected, trace, closing).1 != None;
      ShownEnds(run, m, from, n, trace, FirstEnd(trace).value);
    }
  }

  /** Some looks between the moments `from` and `n` make the call return `result`. */
  ghost predicate CanReturn(run: seq<L.World>, c: nat, from: nat, n: nat, s: Session, closing: bool, result: Result<()>)
    requires from < |run|
  {
    exists trace :: Shown(run, c, from, n, trace) && WaitForLink(s, IsConnected(run[from]), trace, closing).1 == Some(result)
  }

  predicate Since(w: L.World, c: nat, s: L.TransportState) {
    exists k :: c <= k < |w.transportLog| && w.transportLog[k] == s
  }

  /** A single look, which skips what came before it. */
  lemma OneLook(run: seq<L.World>, c: nat, from: nat, n: nat, k: nat) returns (trace: seq<Moment>)
    requires from <= n < |run| && c <= k < |run[n].transportLog|
    ensures Shown(run, c, from, n, trace)
    ensures trace == [Moment(StateItem(run[n].transportLog[k]), IsConnected(run[n]))]
  {
    trace := [Moment(StateItem(run[n].transportLog[k]), IsConnected(run[n]))];
    assert ShownAt(run, c, from, n, trace, [n], [k]);
  }

  /** Which item of a trace ended the wait, and what it shows of the run. */
  lemma ShownSince(run: seq<L.World>, m: nat, from: nat, n: nat, trace: seq<Moment>, j: nat)
    requires L.IsRun(run) && m <= from <= n < |run| && j < |trace| && EndsWait(trace[j])
    requires Shown(run, |run[m].transportLog|, from, n, trace)
    ensures ShowsConnected(trace[j]) ==> Since(run[n], |run[m].transportLog|, L.TransportConnected)
    ensures !ShowsConnected(trace[j]) ==> trace[j].item == StateItem(L.TransportFailed)
    ensures !ShowsConnected(trace[j]) ==> Since(run[n], |run[m].transportLog|, L.TransportFailed)
  {
    var c := |run[m].transportLog|;
    var looks, at :| ShownAt(run, c, from, n, trace, looks, at);
    assert LookOk(run[looks[j]], c, at[j], trace[j]);
    L.RunIsLater(run, looks[j], n);
    var log := run[looks[j]].transportLog;
    assert run[n].transportLog[at[j]] == log[at[j]] && run[n].transportLog[|log| - 1] == log[|log| - 1];
  }

  /** In every run, whatever signaling broadcasts: a waiter that found the status
      undecided can return `Ok` by moment `n` if and only if the transport was
      connected at its look or has been since its subscription, and an error if and
      only if the transport was not connected at its look and has failed since. */
  lemma ReturnsExactly(run: seq<L.World>, m: nat, from: nat, n: nat, s: Session, closing: bool)
    requires L.IsRun(run) && m <= from <= n < |run| && s.status !in {Connected, Disconnected}
    ensures CanReturn(run, |run[m].transportLog|, from, n, s, closing, Ok(()))
       <==> IsConnected(run[from]) || Since(run[n], |run[m].transportLog|, L.TransportConnected)
    ensures CanReturn(run, |run[m].transportLog|, from, n, s, closing, Err(SessionError))
       <==> !IsConnected(run[from]) && Since(run[n], |run[m].transportLog|, L.TransportFailed)
  {
    var c, connected := |run[m].transportLog|, IsConnected(run[from]);
    if connected {
      assert ShownAt(run, c, from, n, [], [], []);
      assert WaitForLink(s, connected, [], closing).1 == Some(Ok(()));
    } else {
      if k :| c <= k < |run[n].transportLog| && run[n].transportLog[k] == L.TransportConnected {
        var trace := OneLook(run, c, from, n, k);
        WaitTellsFirstEnd(s, trace, closing, 0);
      }
      if k :| c <= k < |run[n].transportLog| && run[n].transportLog[k] == L.TransportFailed {
        var trace := OneLook(run, c, from, n, k);
        WaitTellsFirstEnd(s, trace, closing, 0);
      }
      forall trace, result | Shown(run, c, from, n, trace) && WaitForLink(s, connected, trace, closing).1 == Some(result)
        ensures result == Ok(()) ==> Since(run[n], c, L.TransportConnected)
        ensures result == Err(SessionError) ==> Since(run[n], c, L.TransportFailed)
      {
        var j := FirstEnd(trace).value;
        ShownSince(run, m, from, n, trace, j);
        WaitTellsFirstEnd(s, trace, closing, j);
      }
    }
  }

  /** Once signaling has failed, or ended without a common transport, no waiter is
      ever told, whenever it subscribed and looked; a caller that finds the status
      `Disconnected` gets the error at once. */
  lemma FailedSignalingWakesNoWaiter(me: S.Properties, run: seq<M.World>, failed: nat, m: nat, from: nat, n: nat, s: Session, closing: bool)
    requires M.IsRun(me, run) && failed <= n < |run| && m <= from <= n
    requires M.SignalingFailed(run[failed]) || M.Abandoned(run[failed])
    ensures s.status !in {Connected, Disconnected} ==>
              !CanEnd(M.LoopsOf(run), |run[m].loops.transportLog|, from, n, s, closing)
    ensures s.status == Disconnected ==> forall trace :: WaitForLink(s, false, trace, closing) == (s, Some(Err(SessionError)))
  {
    var loops := M.LoopsOf(run);
    M.RunProjects(me, run);
    M.FailedSignalingLeavesTransportIdle(me, run, failed, n);
    L.RunIsLater(loops, from, n);
    var log := loops[n].transportLog;
    forall k | 0 <= k < |log| ensures !EndsLink(log[k]) {
      assert log[k] in log;
    }
    if s.status !in {Connected, Disconnected} {
      WaitEndsExactly(loops, m, from, n, s, closing);
    }
  }

  /** For every client and each of three causes there is a run in which the status
      goes to `Disconnected`, and a waiter that was there before cannot have been
      told. Signaling that fails or ends without a common transport leaves it so in
      every continuation; after a failed setup the transport may still fail. */
  lemma DisconnectedLeavesWaiter(me: S.Properties, hostKey: Key, cause: M.Cause, s: Session, closing: bool)
    returns (run: seq<M.World>, m: nat)
    requires !me.isHost && me.secret.Some? && me.hash(hostKey) == me.h && s.status == Linking
    ensures M.IsRun(me, run) && m < |run| && run[m].loops.status == Linking && run[|run| - 1].loops.status == Disconnected
    ensures !CanEnd(M.LoopsOf(run), 0, m, |run| - 1, s, closing)
    ensures !cause.TransportSetupFails? ==>
              forall longer: seq<M.World>, n: nat :: run <= longer && M.IsRun(me, longer) && |run| <= n < |longer| ==>
                !CanEnd(M.LoopsOf(longer), 0, m, n, s, closing)
  {
    run, m := M.DisconnectsUnshown(me, hostKey, cause);
    var last := |run| - 1;
    M.RunProjects(me, run);
    WaitEndsExactly(M.LoopsOf(run), m, m, last, s, closing);
    if !cause.TransportSetupFails? {
      forall longer: seq<M.World>, n: nat | run <= longer && M.IsRun(me, longer) && |run| <= n < |longer|
        ensures !CanEnd(M.LoopsOf(longer), 0, m, n, s, closing)
      {
        assert longer[last] == run[last] && longer[m] == run[m];
        FailedSignalingWakesNoWaiter(me, longer, last, m, m, n, s, closing);
      }
    }
  }
}
