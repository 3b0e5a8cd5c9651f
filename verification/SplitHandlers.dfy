/**
 What split handlers do not promise. A second flash that the host read while it
 was `Ready`, and that resumes late, takes the host back from `HandshakePartial`
 to `Handshake` with the client's key already stored; the host never completes
 from there. And a deadline that looked at the state just before `Encrypted` was
 written fails an encrypted client.
 */
module SplitHandlers {
  import opened Common
  import opened Wire
  import opened Signaling
  import opened FineGrain
  import Runs

  function Last(run: seq<World>): World
    requires run != []
  {
    run[|run| - 1]
  }

  ghost predicate IsRunTo(ids: seq<Properties>, run: seq<World>, w: World) {
    FineGrain.IsRun(ids, run) && Last(run) == w && |w.parties| == |ids|
  }

  /** One more step at the end of a run, which leaves the acting end as `p`. */
  lemma Advance(ids: seq<Properties>, run: seq<World>, step: Step, p: Party, net: set<Frame>) returns (longer: seq<World>)
    requires run != [] && IsRunTo(ids, run, Last(run)) && FineGrain.Enabled(ids, Last(run), step) && !step.Inject?
    requires FineGrain.Apply(ids, Last(run), step) == World(Last(run).parties[step.i := p], net)
    ensures IsRunTo(ids, longer, World(Last(run).parties[step.i := p], net)) && run < longer
  {
    var w := FineGrain.Apply(ids, Last(run), step);
    longer := run + [w];
    assert FineGrain.NextOf(ids)(Last(run), w);
    Runs.Extend(NewWorld(ids), FineGrain.NextOf(ids), run, w);
  }

  /** One more action of task `t`, which starts no other task. */
  lemma AdvanceTask(ids: seq<Properties>, run: seq<World>, i: nat, t: nat, ok: bool, p: Party, rest: Task, net: set<Frame>)
    returns (longer: seq<World>)
    requires run != [] && IsRunTo(ids, run, Last(run)) && i < |ids|
    requires t < |p.tasks| && p.tasks == Last(run).parties[i].tasks && p.tasks[t].Do?
    requires Execute(ids[i], Last(run).parties[i], p.tasks[t].next, p.tasks[t].rest, ok).party == p
    requires Execute(ids[i], Last(run).parties[i], p.tasks[t].next, p.tasks[t].rest, ok).rest == rest
    requires Execute(ids[i], Last(run).parties[i], p.tasks[t].next, p.tasks[t].rest, ok).started.None?
    requires net == Last(run).net + SentBy(Execute(ids[i], Last(run).parties[i], p.tasks[t].next, p.tasks[t].rest, ok))
    ensures IsRunTo(ids, longer, World(Last(run).parties[i := p.(tasks := p.tasks[t := rest])], net)) && run < longer
  {
    longer := Advance(ids, run, RunTask(i, t, ok), p.(tasks := p.tasks[t := rest]), net);
  }

  /** A host and one client of the same URL, with their shared secret. */
  ghost predicate HostAndClient(ids: seq<Properties>) {
    Valid(ids) && |ids| == 2 && ids[0].secret.Some? && ids[1].secret == ids[0].secret
  }

  // ----- the frames of the run, and how far the two ends get

  function FlashFrame(ids: seq<Properties>): Frame
    requires HostAndClient(ids)
  {
    Frame(HandshakePrefix, Host, Shared(ids[0].secret.value, Flash))
  }

  function HostKeyFrame(ids: seq<Properties>): Frame
    requires HostAndClient(ids)
  {
    Frame(HandshakePrefix, Client, Shared(ids[0].secret.value, Pubkey(Some(ids[0].key))))
  }

  function ClientKeyFrame(ids: seq<Properties>): Frame
    requires HostAndClient(ids)
  {
    Frame(EncryptedPrefix, Host, Peer(ids[1].key, ids[0].key, Pubkey(Some(ids[1].key))))
  }

  const SET_UP := NEW_PARTY.(subscribed := true, branched := true, setup := Done)

  const HOST_READY := SET_UP.(state := Ready)

  const CLIENT_FLASHED :=
    SET_UP.(state := Handshake, setup := Do(StartRepeating(FlashOut()), Done), tasks := [Do(CheckDeadline, Done)])

  /** The handler of the other end's key, read in `Handshake` by end `i`. */
  function KeyTask(ids: seq<Properties>, i: nat): Task
    requires HostAndClient(ids) && i < 2
  {
    Do(StoreKey(ids[1 - i].key),
       Do(WriteState(HandshakePartial), RepeatingSend(if i == 0 then CapabilitiesOut(ids[0]) else ClientKeyOut(ids[1]))))
  }

  /** One flash handler has announced the host's key; the other has only read the state. */
  function HostAnnounced(me: Properties): Party {
    SET_UP.(state := Handshake, tasks := [Do(StartRepeating(HostKeyOut(me)), Done), FlashTask(me)])
  }

  function ClientPartial(ids: seq<Properties>): Party
    requires HostAndClient(ids)
  {
    CLIENT_FLASHED.(state := HandshakePartial, relyingKey := Some(ids[0].key),
                   tasks := [Do(CheckDeadline, Done), Do(StartRepeating(ClientKeyOut(ids[1])), Done)])
  }

  function HostPartial(ids: seq<Properties>): Party
    requires HostAndClient(ids)
  {
    var before := HostAnnounced(ids[0]);
    before.(state := HandshakePartial, relyingKey := Some(ids[1].key),
            tasks := before.tasks + [RepeatingSend(CapabilitiesOut(ids[0]))])
  }

  lemma HostSetsUp(ids: seq<Properties>) returns (run: seq<World>)
    requires HostAndClient(ids)
    ensures IsRunTo(ids, run, World([HOST_READY, NEW_PARTY], {}))
  {
    run := [NewWorld(ids)];
    var h := NEW_PARTY.(state := Connecting, setup := SETUP_TASK.rest);
    run := Advance(ids, run, RunSetup(0, true), h, {});
    h := h.(subscribed := true, setup := SETUP_TASK.rest.rest);
    run := Advance(ids, run, RunSetup(0, true), h, {});
    h := h.(branched := true, setup := SetupBranch(ids[0], false));
    run := Advance(ids, run, RunSetup(0, true), h, {});
    run := Advance(ids, run, RunSetup(0, true), HOST_READY, {});
    assert Last(run).parties == [HOST_READY, NEW_PARTY];
  }

  lemma ClientBranches(ids: seq<Properties>) returns (run: seq<World>)
    requires HostAndClient(ids)
    ensures IsRunTo(ids, run, World([HOST_READY, SET_UP.(state := Connecting, setup := SetupBranch(ids[1], false))], {}))
  {
    run := HostSetsUp(ids);
    var c := NEW_PARTY.(state := Connecting, setup := SETUP_TASK.rest);
    run := Advance(ids, run, RunSetup(1, true), c, {});
    c := c.(subscribed := true, setup := SETUP_TASK.rest.rest);
    run := Advance(ids, run, RunSetup(1, true), c, {});
    c := c.(branched := true, setup := SetupBranch(ids[1], false));
    run := Advance(ids, run, RunSetup(1, true), c, {});
    assert Last(run).parties == [HOST_READY, c];
  }

  lemma ClientStartsDeadline(ids: seq<Properties>) returns (run: seq<World>)
    requires HostAndClient(ids)
    ensures IsRunTo(ids, run, World([HOST_READY, CLIENT_FLASHED.(setup := RepeatingSend(FlashOut()))], {}))
  {
    run := ClientBranches(ids);
    var task := SetupBranch(ids[1], false);
    var c := SET_UP.(state := Ready, setup := task.rest);
    run := Advance(ids, run, RunSetup(1, true), c, {});
    c := c.(state := Handshake, setup := task.rest.rest);
    run := Advance(ids, run, RunSetup(1, true), c, {});
    c := AddTask(c.(setup := RepeatingSend(FlashOut())), Do(CheckDeadline, Done));
    run := Advance(ids, run, RunSetup(1, true), c, {});
    assert c.tasks == CLIENT_FLASHED.tasks;
    assert Last(run).parties == [HOST_READY, c];
  }

  lemma ClientSetsUp(ids: seq<Properties>) returns (run: seq<World>)
    requires HostAndClient(ids)
    ensures IsRunTo(ids, run, World([HOST_READY, CLIENT_FLASHED], {FlashFrame(ids)}))
  {
    run := ClientStartsDeadline(ids);
    var c := CLIENT_FLASHED.(setup := Do(Publish(FlashFrame(ids), true), RepeatingSend(FlashOut()).rest));
    run := Advance(ids, run, RunSetup(1, true), c, {});
    run := Advance(ids, run, RunSetup(1, true), CLIENT_FLASHED, {FlashFrame(ids)});
    assert Last(run).parties == [HOST_READY, CLIENT_FLASHED];
  }

  /** The flash arrives twice; both handlers read `Ready` and go on in their branch. */
  lemma HostReadsTwice(ids: seq<Properties>) returns (run: seq<World>)
    requires HostAndClient(ids)
    ensures IsRunTo(ids, run, World([HOST_READY.(tasks := [FlashTask(ids[0]), FlashTask(ids[0])]), CLIENT_FLASHED], {FlashFrame(ids)}))
  {
    run := ClientSetsUp(ids);
    var (net, flash) := ({FlashFrame(ids)}, FlashFrame(ids));
    var (opening, reading, branch) := (Do(Decrypt(flash), Done), Do(ReadState(flash, Flash), Done), FlashTask(ids[0]));
    var h := AddTask(HOST_READY, opening);
    run := Advance(ids, run, Deliver(0, flash), h, net);
    h := AddTask(h, opening);
    run := Advance(ids, run, Deliver(0, flash), h, net);
    run := AdvanceTask(ids, run, 0, 0, true, h, reading, net);
    h := h.(tasks := h.tasks[0 := reading]);
    run := AdvanceTask(ids, run, 0, 1, true, h, reading, net);
    h := h.(tasks := h.tasks[1 := reading]);
    run := AdvanceTask(ids, run, 0, 0, true, h, branch, net);
    h := h.(tasks := h.tasks[0 := branch]);
    run := AdvanceTask(ids, run, 0, 1, true, h, branch, net);
    h := h.(tasks := h.tasks[1 := branch]);
    assert h.tasks == [branch, branch];
    assert Last(run).parties == [h, CLIENT_FLASHED];
  }

  lemma HostAnnounces(ids: seq<Properties>) returns (run: seq<World>)
    requires HostAndClient(ids)
    ensures IsRunTo(ids, run, World([HostAnnounced(ids[0]), CLIENT_FLASHED], {FlashFrame(ids), HostKeyFrame(ids)}))
  {
    run := HostReadsTwice(ids);
    var (net, task) := ({FlashFrame(ids)}, FlashTask(ids[0]));
    var h := HOST_READY.(state := Handshake, tasks := [task, task]);
    run := AdvanceTask(ids, run, 0, 0, true, h, task.rest, net);
    h := h.(tasks := h.tasks[0 := task.rest]);
    run := AdvanceTask(ids, run, 0, 0, false, h, task.rest.rest, net);
    h := h.(tasks := h.tasks[0 := task.rest.rest]);
    var publish := Do(Publish(HostKeyFrame(ids), true), task.rest.rest.rest);
    run := AdvanceTask(ids, run, 0, 0, true, h, publish, net);
    h := h.(tasks := h.tasks[0 := publish]);
    run := AdvanceTask(ids, run, 0, 0, true, h, publish.rest, net + {HostKeyFrame(ids)});
    assert h.tasks[0 := publish.rest] == HostAnnounced(ids[0]).tasks;
    assert Last(run).parties == [HostAnnounced(ids[0]), CLIENT_FLASHED];
  }

  lemma ClientReadsKey(ids: seq<Properties>) returns (run: seq<World>)
    requires HostAndClient(ids)
    ensures IsRunTo(ids, run, World([HostAnnounced(ids[0]), AddTask(CLIENT_FLASHED, KeyTask(ids, 1))], {FlashFrame(ids), HostKeyFrame(ids)}))
  {
    run := HostAnnounces(ids);
    var (net, frame) := (Last(run).net, HostKeyFrame(ids));
    var c := AddTask(CLIENT_FLASHED, Do(Decrypt(frame), Done));
    run := Advance(ids, run, Deliver(1, frame), c, net);
    var reading := Do(ReadState(frame, Pubkey(Some(ids[0].key))), Done);
    run := AdvanceTask(ids, run, 1, 1, true, c, reading, net);
    c := c.(tasks := c.tasks[1 := reading]);
    run := AdvanceTask(ids, run, 1, 1, true, c, KeyTask(ids, 1), net);
    assert c.tasks[1 := KeyTask(ids, 1)] == AddTask(CLIENT_FLASHED, KeyTask(ids, 1)).tasks;
    assert Last(run).parties == [HostAnnounced(ids[0]), AddTask(CLIENT_FLASHED, KeyTask(ids, 1))];
  }

  lemma ClientAnswers(ids: seq<Properties>) returns (run: seq<World>)
    requires HostAndClient(ids)
    ensures IsRunTo(ids, run, World([HostAnnounced(ids[0]), ClientPartial(ids)], {FlashFrame(ids), HostKeyFrame(ids), ClientKeyFrame(ids)}))
  {
    run := ClientReadsKey(ids);
    var (net, task) := (Last(run).net, KeyTask(ids, 1));
    var c := AddTask(CLIENT_FLASHED, task).(relyingKey := Some(ids[0].key));
    run := AdvanceTask(ids, run, 1, 1, true, c, task.rest, net);
    c := c.(state := HandshakePartial, tasks := c.tasks[1 := task.rest]);
    run := AdvanceTask(ids, run, 1, 1, true, c, task.rest.rest, net);
    c := c.(tasks := c.tasks[1 := task.rest.rest]);
    var publish := Do(Publish(ClientKeyFrame(ids), true), task.rest.rest.rest);
    run := AdvanceTask(ids, run, 1, 1, true, c, publish, net);
    c := c.(tasks := c.tasks[1 := publish]);
    run := AdvanceTask(ids, run, 1, 1, true, c, publish.rest, net + {ClientKeyFrame(ids)});
    assert c.tasks[1 := publish.rest] == ClientPartial(ids).tasks;
    assert Last(run).parties == [HostAnnounced(ids[0]), ClientPartial(ids)];
  }

  lemma HostReadsKey(ids: seq<Properties>) returns (run: seq<World>)
    requires HostAndClient(ids)
    ensures run != [] && IsRunTo(ids, run, World([AddTask(HostAnnounced(ids[0]), KeyTask(ids, 0)), ClientPartial(ids)], Last(run).net))
  {
    run := ClientAnswers(ids);
    var (net, frame) := (Last(run).net, ClientKeyFrame(ids));
    var h := AddTask(HostAnnounced(ids[0]), Do(Decrypt(frame), Done));
    run := Advance(ids, run, Deliver(0, frame), h, net);
    var reading := Do(ReadState(frame, Pubkey(Some(ids[1].key))), Done);
    run := AdvanceTask(ids, run, 0, 2, true, h, reading, net);
    h := h.(tasks := h.tasks[2 := reading]);
    run := AdvanceTask(ids, run, 0, 2, true, h, KeyTask(ids, 0), net);
    assert h.tasks[2 := KeyTask(ids, 0)] == AddTask(HostAnnounced(ids[0]), KeyTask(ids, 0)).tasks;
    assert Last(run).parties == [AddTask(HostAnnounced(ids[0]), KeyTask(ids, 0)), ClientPartial(ids)];
  }

  lemma HostStoresKey(ids: seq<Properties>) returns (run: seq<World>)
    requires HostAndClient(ids)
    ensures run != [] && IsRunTo(ids, run, World([HostPartial(ids), ClientPartial(ids)], Last(run).net))
  {
    run := HostReadsKey(ids);
    var (net, task) := (Last(run).net, KeyTask(ids, 0));
    var h := AddTask(HostAnnounced(ids[0]), task).(relyingKey := Some(ids[1].key));
    run := AdvanceTask(ids, run, 0, 2, true, h, task.rest, net);
    h := h.(state := HandshakePartial, tasks := h.tasks[2 := task.rest]);
    run := AdvanceTask(ids, run, 0, 2, true, h, task.rest.rest, net);
    assert h.tasks[2 := task.rest.rest] == HostPartial(ids).tasks;
    assert Last(run).parties == [HostPartial(ids), ClientPartial(ids)];
  }

  // ----- a host that cannot complete any more

  /** Nothing left in the task can take a host with a stored key past `Handshake`. */
  predicate Idle(task: Task)
    decreases task
  {
    task.Do? ==>
      match task.next
      case WriteState(s) => s in {Handshake, Error} && Idle(task.rest)
      case Subscribe => false
      case CheckCanEncrypt => false
      case StoreCaps(_) => false
      case StartDeadline => Idle(task.rest)
      case Encrypt(_, _) => Idle(task.rest)
      case Publish(_, _) => Idle(task.rest)
      case StartRepeating(_) => Idle(task.rest)
      case _ => true
  }

  predicate StrandedHost(p: Party) {
    && p.relyingKey.Some? && p.state in {Handshake, Error} && Idle(p.setup)
    && forall t :: 0 <= t < |p.tasks| ==> Idle(p.tasks[t])
  }

  ghost predicate Stranded(ids: seq<Properties>, w: World) {
    Valid(ids) && |w.parties| == |ids| && StrandedHost(w.parties[0])
  }

  lemma IdleAction(me: Properties, p: Party, a: Action, rest: Task, ok: bool)
    requires me.isHost && p.relyingKey.Some? && p.state in {Handshake, Error} && Idle(Do(a, rest))
    ensures var o := Execute(me, p, a, rest, ok);
            && o.party.relyingKey.Some? && o.party.state in {Handshake, Error} && Idle(o.rest)
            && (o.started.Some? ==> Idle(o.started.value))
            && o.party.setup == p.setup && o.party.tasks == p.tasks
  {
  }

  lemma StrandedStays(ids: seq<Properties>, w: World, step: Step)
    requires Stranded(ids, w) && FineGrain.Enabled(ids, w, step)
    ensures Stranded(ids, FineGrain.Apply(ids, w, step))
  {
    if !step.Inject? && step.i == 0 {
      var p := w.parties[0];
      match step
      case RunTask(i, t, ok) => IdleAction(ids[i], p, p.tasks[t].next, p.tasks[t].rest, ok);
      case RunSetup(i, ok) => IdleAction(ids[i], p, p.setup.next, p.setup.rest, ok);
      case _ =>
    }
  }

  /** From a stranded world on, in every continuation, the host is in `Handshake` or `Error`. */
  lemma StrandedForever(ids: seq<Properties>, run: seq<World>, m: nat, n: nat)
    requires FineGrain.IsRun(ids, run) && m <= n < |run| && Stranded(ids, run[m])
    ensures Stranded(ids, run[n])
  {
    var always := (w: World) => true;
    var rel := (w: World, w': World) => Stranded(ids, w) ==> Stranded(ids, w');
    forall w, w' | FineGrain.NextOf(ids)(w, w') ensures rel(w, w') {
      var step :| FineGrain.Enabled(ids, w, step) && FineGrain.Apply(ids, w, step) == w';
      if Stranded(ids, w) {
        StrandedStays(ids, w, step);
      }
    }
    Runs.RelationHolds(NewWorld(ids), FineGrain.NextOf(ids), always, rel, run, m, n);
  }

  lemma RepeatingSendIsIdle(o: Outgoing)
    ensures Idle(RepeatingSend(o))
  {
  }

  /** The delayed handler goes on, when the host has stored the client's key. */
  lemma HostFallsBack(ids: seq<Properties>) returns (run: seq<World>, m: nat)
    requires HostAndClient(ids)
    ensures m + 1 < |run| && FineGrain.IsRun(ids, run) && Stranded(ids, Last(run))
    ensures |run[m].parties| == |Last(run).parties| == 2
    ensures run[m].parties[0].state == HandshakePartial && Last(run).parties[0].state == Handshake
    ensures Last(run).parties[1] == ClientPartial(ids)
  {
    run := HostStoresKey(ids);
    var h, rest := HostPartial(ids).(state := Handshake), FlashTask(ids[0]).rest;
    RepeatingSendIsIdle(HostKeyOut(ids[0]));
    RepeatingSendIsIdle(CapabilitiesOut(ids[0]));
    assert Idle(Do(StartRepeating(HostKeyOut(ids[0])), Done)) && Idle(rest);
    m := |run| - 1;
    run := AdvanceTask(ids, run, 0, 1, true, h, rest, Last(run).net);
  }

  /** For every host and client there is a run in which the host falls back from
      `HandshakePartial` to `Handshake`; the client has stored the host's key by
      then, but however the run goes on, the host is never encrypted. */
  lemma DelayedFlashStrandsHost(ids: seq<Properties>) returns (run: seq<World>, m: nat)
    requires HostAndClient(ids)
    ensures m + 1 < |run| && FineGrain.IsRun(ids, run)
    ensures |run[m].parties| == |Last(run).parties| == 2
    ensures run[m].parties[0].state == HandshakePartial && Last(run).parties[0].state == Handshake
    ensures Last(run).parties[1].state == HandshakePartial && Last(run).parties[1].relyingKey == Some(ids[0].key)
    ensures forall longer: seq<World>, n: nat ::
              run <= longer && FineGrain.IsRun(ids, longer) && |run| <= n < |longer| ==>
                |longer[n].parties| == 2 && longer[n].parties[0].state in {Handshake, Error}
  {
    run, m := HostFallsBack(ids);
    forall longer: seq<World>, n: nat | run <= longer && FineGrain.IsRun(ids, longer) && |run| <= n < |longer|
      ensures |longer[n].parties| == 2 && longer[n].parties[0].state in {Handshake, Error}
    {
      assert longer[|run| - 1] == Last(run);
      StrandedForever(ids, longer, |run| - 1, n);
    }
  }

  // ----- a deadline that comes late

  function HostCapabilitiesFrame(ids: seq<Properties>): Frame
    requires HostAndClient(ids)
  {
    Frame(EncryptedPrefix, Client, Peer(ids[0].key, ids[1].key, Capabilities(ids[0].capabilities)))
  }

  /** The host has sent its capabilities; the second flash is still waiting. */
  function HostAdvertised(ids: seq<Properties>): Party
    requires HostAndClient(ids)
  {
    var before := HostPartial(ids);
    before.(tasks := before.tasks[2 := Do(StartRepeating(CapabilitiesOut(ids[0])), Done)])
  }

  lemma HostAdvertises(ids: seq<Properties>) returns (run: seq<World>)
    requires HostAndClient(ids)
    ensures run != [] && IsRunTo(ids, run, Last(run)) && HostCapabilitiesFrame(ids) in Last(run).net
    ensures Last(run).parties == [HostAdvertised(ids), ClientPartial(ids)]
  {
    run := HostStoresKey(ids);
    var (net, h, send) := (Last(run).net, HostPartial(ids), RepeatingSend(CapabilitiesOut(ids[0])));
    var publish := Do(Publish(HostCapabilitiesFrame(ids), true), send.rest);
    run := AdvanceTask(ids, run, 0, 2, true, h, publish, net);
    h := h.(tasks := h.tasks[2 := publish]);
    run := AdvanceTask(ids, run, 0, 2, true, h, send.rest, net + {HostCapabilitiesFrame(ids)});
    assert h.tasks[2 := send.rest] == HostAdvertised(ids).tasks;
    assert Last(run).parties == [HostAdvertised(ids), ClientPartial(ids)];
  }

  /** The client's handler of the host's capabilities. */
  function CompletingTask(ids: seq<Properties>): Task
    requires HostAndClient(ids)
  {
    Do(StoreCaps(ids[0].capabilities), Do(WriteState(Encrypted), Do(Encrypt(CapabilitiesOut(ids[1]), true), Done)))
  }

  lemma ClientReadsCapabilities(ids: seq<Properties>) returns (run: seq<World>)
    requires HostAndClient(ids)
    ensures run != [] && IsRunTo(ids, run, Last(run))
    ensures Last(run).parties == [HostAdvertised(ids), AddTask(ClientPartial(ids), CompletingTask(ids))]
  {
    run := HostAdvertises(ids);
    var (net, frame) := (Last(run).net, HostCapabilitiesFrame(ids));
    var c := AddTask(ClientPartial(ids), Do(Decrypt(frame), Done));
    run := Advance(ids, run, Deliver(1, frame), c, net);
    var reading := Do(ReadState(frame, Capabilities(ids[0].capabilities)), Done);
    run := AdvanceTask(ids, run, 1, 2, true, c, reading, net);
    c := c.(tasks := c.tasks[2 := reading]);
    run := AdvanceTask(ids, run, 1, 2, true, c, CompletingTask(ids), net);
    assert c.tasks[2 := CompletingTask(ids)] == AddTask(ClientPartial(ids), CompletingTask(ids)).tasks;
    assert Last(run).parties == [HostAdvertised(ids), AddTask(ClientPartial(ids), CompletingTask(ids))];
  }

  /** For every host and client there is a run in which the client's deadline looks
      at the state before `Encrypted` is written and writes `Error` after it: the
      client had both stored values and was encrypted. */
  lemma DeadlineFailsEncrypted(ids: seq<Properties>) returns (run: seq<World>, m: nat)
    requires HostAndClient(ids)
    ensures m + 1 < |run| && FineGrain.IsRun(ids, run)
    ensures |run[m].parties| == |Last(run).parties| == 2
    ensures run[m].parties[1].state == Encrypted && Last(run).parties[1].state == Error
    ensures Last(run).parties[1].relyingKey == Some(ids[0].key) && Last(run).parties[1].peerCapabilities == Some(ids[0].capabilities)
  {
    run := ClientReadsCapabilities(ids);
    var (net, task) := (Last(run).net, CompletingTask(ids));
    var c := AddTask(ClientPartial(ids), task);
    var failing := Do(WriteState(Error), Done);
    run := AdvanceTask(ids, run, 1, 0, true, c, failing, net);
    c := c.(peerCapabilities := Some(ids[0].capabilities), tasks := c.tasks[0 := failing]);
    run := AdvanceTask(ids, run, 1, 2, true, c, task.rest, net);
    c := c.(state := Encrypted, reached := true, tasks := c.tasks[2 := task.rest]);
    run := AdvanceTask(ids, run, 1, 2, true, c, task.rest.rest, net);
    m := |run| - 1;
    c := c.(state := Error, tasks := c.tasks[2 := task.rest.rest]);
    run := AdvanceTask(ids, run, 1, 0, true, c, Done, net);
  }

  // ----- a repeating task that comes late

  /** The client is encrypted; what is left of its tasks is `tasks`. */
  function ClientEncrypted(ids: seq<Properties>, tasks: seq<Task>): Party
    requires HostAndClient(ids)
  {
    ClientPartial(ids).(state := Encrypted, reached := true, peerCapabilities := Some(ids[0].capabilities), tasks := tasks)
  }

  lemma ClientCompletes(ids: seq<Properties>) returns (run: seq<World>)
    requires HostAndClient(ids)
    ensures run != [] && IsRunTo(ids, run, Last(run))
    ensures Last(run).parties == [HostAdvertised(ids), ClientEncrypted(ids, ClientPartial(ids).tasks + [CompletingTask(ids).rest.rest])]
  {
    run := ClientReadsCapabilities(ids);
    var (net, task) := (Last(run).net, CompletingTask(ids));
    var c := AddTask(ClientPartial(ids), task).(peerCapabilities := Some(ids[0].capabilities));
    run := AdvanceTask(ids, run, 1, 2, true, c, task.rest, net);
    c := c.(state := Encrypted, reached := true, tasks := c.tasks[2 := task.rest]);
    run := AdvanceTask(ids, run, 1, 2, true, c, task.rest.rest, net);
    assert c.tasks[2 := task.rest.rest] == ClientPartial(ids).tasks + [task.rest.rest];
    assert Last(run).parties == [HostAdvertised(ids), ClientEncrypted(ids, ClientPartial(ids).tasks + [task.rest.rest])];
  }

  /** For every host and client there is a run in which the client writes
      `Encrypted`, which stops its repeating task, and then a suspended send starts
      repeating its key. */
  lemma RepeatsAfterEncrypted(ids: seq<Properties>) returns (run: seq<World>, m: nat)
    requires HostAndClient(ids)
    ensures m + 1 < |run| && FineGrain.IsRun(ids, run)
    ensures |run[m].parties| == |Last(run).parties| == 2
    ensures run[m].parties[1].state == Encrypted && Last(run).parties[1].state == Encrypted
    ensures var (before, after) := (run[m].parties[1].tasks, Last(run).parties[1].tasks);
            |after| == |before| + 1 && after[|before|] == Do(Repeat(ClientKeyOut(ids[1])), Done)
  {
    run := ClientCompletes(ids);
    m := |run| - 1;
    var c := Last(run).parties[1];
    var c' := c.(tasks := (c.tasks + [Do(Repeat(ClientKeyOut(ids[1])), Done)])[1 := Done]);
    assert c.tasks[1] == Do(StartRepeating(ClientKeyOut(ids[1])), Done);
    assert (c.tasks[1 := Done]) + [Do(Repeat(ClientKeyOut(ids[1])), Done)] == c'.tasks;
    run := Advance(ids, run, RunTask(1, 1, true), c', Last(run).net);
  }

  // ----- an encrypted host with the second flash still waiting

  function ClientCapabilitiesFrame(ids: seq<Properties>): Frame
    requires HostAndClient(ids)
  {
    Frame(EncryptedPrefix, Host, Peer(ids[1].key, ids[0].key, Capabilities(ids[1].capabilities)))
  }

  lemma ClientEchoes(ids: seq<Properties>) returns (run: seq<World>)
    requires HostAndClient(ids)
    ensures run != [] && IsRunTo(ids, run, Last(run)) && ClientCapabilitiesFrame(ids) in Last(run).net
    ensures Last(run).parties[0] == HostAdvertised(ids)
  {
    run := ClientCompletes(ids);
    var (net, tasks) := (Last(run).net, ClientPartial(ids).tasks + [CompletingTask(ids).rest.rest]);
    var c := ClientEncrypted(ids, tasks);
    var publish := Do(Publish(ClientCapabilitiesFrame(ids), true), Done);
    run := AdvanceTask(ids, run, 1, 2, true, c, publish, net);
    c := c.(tasks := c.tasks[2 := publish]);
    run := AdvanceTask(ids, run, 1, 2, true, c, Done, net + {ClientCapabilitiesFrame(ids)});
  }

  /** For every host and client there is a run to a host that is encrypted while a
      flash handler of its own still has `Handshake` to write. */
  lemma EncryptedWithLateFlash(ids: seq<Properties>) returns (run: seq<World>)
    requires HostAndClient(ids)
    ensures run != [] && IsRunTo(ids, run, Last(run))
    ensures var h := Last(run).parties[0];
            h.state == Encrypted && |h.tasks| > 1 && h.tasks[1] == FlashTask(ids[0])
  {
    run := ClientEchoes(ids);
    var (net, frame, caps) := (Last(run).net, ClientCapabilitiesFrame(ids), ids[1].capabilities);
    var h := AddTask(HostAdvertised(ids), Do(Decrypt(frame), Done));
    run := Advance(ids, run, Deliver(0, frame), h, net);
    var reading := Do(ReadState(frame, Capabilities(caps)), Done);
    run := AdvanceTask(ids, run, 0, 3, true, h, reading, net);
    h := h.(tasks := h.tasks[3 := reading]);
    var completing := Do(StoreCaps(caps), Do(WriteState(Encrypted), Done));
    run := AdvanceTask(ids, run, 0, 3, true, h, completing, net);
    h := h.(peerCapabilities := Some(caps), tasks := h.tasks[3 := completing]);
    run := AdvanceTask(ids, run, 0, 3, true, h, completing.rest, net);
    h := h.(state := Encrypted, reached := true, tasks := h.tasks[3 := completing.rest]);
    run := AdvanceTask(ids, run, 0, 3, true, h, Done, net);
  }
}
