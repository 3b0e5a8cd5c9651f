/**
 The order of states when handlers are split: which writes can come late, and
 exactly when an end can fall back.
 */
module LateWrites {
  import opened Common
  import opened Wire
  import opened Signaling
  import opened FineGrain
  import Runs

  // ----- what may be left of a task

  /** A task that has not read the state yet, or has nothing left to do. */
  predicate Fresh(task: Task) {
    task.Do? ==> task.next.Decrypt? || task.next.ReadState?
  }

  /** The task writes no locked field unless it reads the state again first. */
  predicate Quiet(task: Task)
    decreases task
  {
    task.Do? ==>
      match task.next
      case StartDeadline => Quiet(task.rest)
      case Encrypt(_, _) => Quiet(task.rest)
      case Publish(_, _) => Quiet(task.rest)
      case StartRepeating(_) => Quiet(task.rest)
      case Repeat(_) => true
      case CheckDeadline => true
      case Decrypt(_) => true
      case ReadState(_, _) => true
      case _ => false
  }

  /** A task that only sends and starts tasks. */
  predicate Inert(task: Task)
    decreases task
  {
    task.Do? ==>
      (task.next.StartDeadline? || task.next.Encrypt? || task.next.Publish? || task.next.StartRepeating?) && Inert(task.rest)
  }

  /** The task's next action writes the state `s`, and it writes nothing after that. */
  predicate Writes(task: Task, s: SignalState) {
    task.Do? && task.next == WriteState(s) && Quiet(task.rest)
  }

  /** A key handler before it stores the key. */
  predicate StoresKey(task: Task) {
    task.Do? && task.next.StoreKey? && Writes(task.rest, HandshakePartial)
  }

  /** A capabilities handler before it stores them. */
  predicate StoresCaps(task: Task) {
    task.Do? && task.next.StoreCaps? && Writes(task.rest, Encrypted)
  }

  predicate Completing(task: Task) {
    StoresCaps(task) || Writes(task, Encrypted)
  }

  predicate Shaped(me: Properties, task: Task) {
    || Quiet(task) || StoresKey(task) || Writes(task, HandshakePartial) || Completing(task) || Writes(task, Error)
    || (me.isHost && task == FlashTask(me))
  }

  // ----- what holds of one end in every run

  predicate Early(s: SignalState) {
    s in {Standby, Connecting, Ready}
  }

  /** `setup` before its last state write is where the state says, or was cancelled. */
  predicate SetupAhead(me: Properties, s: SignalState, task: Task) {
    match s
    case Standby => task == SETUP_TASK || task == Done
    case Connecting => task in {SETUP_TASK.rest, SETUP_TASK.rest.rest, SetupBranch(me, false), Done}
    case _ => task == Done || (!me.isHost && task == SetupBranch(me, false).rest)
  }

  predicate EarlyOk(me: Properties, p: Party) {
    && p.relyingKey.None? && SetupAhead(me, p.state, p.setup)
    && forall t :: 0 <= t < |p.tasks| ==>
         Fresh(p.tasks[t]) || (me.isHost && p.state == Ready && p.tasks[t] == FlashTask(me))
  }

  predicate LateOk(me: Properties, p: Party) {
    && Inert(p.setup)
    && (p.state in {HandshakePartial, Encrypted} ==> p.relyingKey.Some?)
    && (forall t :: 0 <= t < |p.tasks| ==> Shaped(me, p.tasks[t]))
    && (forall t :: 0 <= t < |p.tasks| && Completing(p.tasks[t]) ==> p.relyingKey.Some?)
    && KeyWriterOk(p)
  }

  /** Only one handler ever stores the key, and until it has written the state
      nobody is past `Handshake`. */
  predicate KeyWriterOk(p: Party) {
    && (forall t :: 0 <= t < |p.tasks| && Writes(p.tasks[t], HandshakePartial) ==>
          p.relyingKey.Some? && p.state in {Handshake, Error})
    && (forall t, u :: 0 <= t < |p.tasks| && 0 <= u < |p.tasks| && Writes(p.tasks[t], HandshakePartial) ==>
          !Completing(p.tasks[u]) && (Writes(p.tasks[u], HandshakePartial) ==> t == u))
  }

  predicate Ordered(me: Properties, p: Party) {
    if Early(p.state) then EarlyOk(me, p) else LateOk(me, p)
  }

  ghost predicate AllOrdered(ids: seq<Properties>, w: World) {
    |w.parties| == |ids| && forall i :: 0 <= i < |ids| ==> Ordered(ids[i], w.parties[i])
  }

  // ----- every step keeps it

  lemma BranchShape(me: Properties, s: SignalState, f: Frame, m: Message)
    ensures var task := Branch(me, s, f, m);
            && (Writes(task, Handshake) ==> me.isHost && s == Ready && task == FlashTask(me))
            && (StoresKey(task) ==> s == Handshake)
            && (Completing(task) ==> s == HandshakePartial)
            && (Writes(task, Error) ==> s == Handshake && !me.isHost)
            && !Writes(task, HandshakePartial)
            && (Fresh(task) || Writes(task, Handshake) || StoresKey(task) || Completing(task) || Writes(task, Error)
                || (Quiet(task) && s == Encrypted))
  {
    var task := Branch(me, s, f, m);
    if task.Do? && task.next.WriteState? && task.next.state == Handshake {
      RepeatingSendIsQuiet(HostKeyOut(me));
    } else if task.Do? && task.next.StoreKey? {
      RepeatingSendIsQuiet(if me.isHost then CapabilitiesOut(me) else ClientKeyOut(me));
    } else if task.Do? && task.next.StoreCaps? {
      EchoIsQuiet(CapabilitiesOut(me));
    } else if task.Do? {
      EchoIsQuiet(CapabilitiesOut(me));
    }
  }

  lemma EchoIsQuiet(o: Outgoing)
    ensures Quiet(Do(Encrypt(o, true), Done))
  {
  }

  lemma RepeatingSendIsQuiet(o: Outgoing)
    ensures Quiet(RepeatingSend(o)) && Quiet(Do(StartDeadline, RepeatingSend(o)))
    ensures Inert(RepeatingSend(o)) && Inert(Do(StartDeadline, RepeatingSend(o)))
  {
    assert Quiet(Do(StartRepeating(o), Done)) && Inert(Do(StartRepeating(o), Done));
  }

  lemma FlashWritesHandshake(me: Properties)
    ensures Writes(FlashTask(me), Handshake)
  {
    RepeatingSendIsQuiet(HostKeyOut(me));
  }

  /** What one action of a task leaves of that task, of the state and of the key. */
  lemma EarlyAction(me: Properties, p: Party, t: nat, ok: bool)
    requires Early(p.state) && EarlyOk(me, p) && t < |p.tasks| && p.tasks[t].Do?
    ensures Ordered(me, Ran(p, t, Execute(me, p, p.tasks[t].next, p.tasks[t].rest, ok)))
  {
    var task := p.tasks[t];
    if task.next.ReadState? {
      BranchShape(me, p.state, task.next.frame, task.next.message);
    }
    var o := Execute(me, p, task.next, task.rest, ok);
    FlashWritesHandshake(me);
    assert task != FlashTask(me) ==> Fresh(o.rest) || o.rest == FlashTask(me);
    assert task == FlashTask(me) ==> Quiet(o.rest);
  }

  lemma QuietAction(me: Properties, p: Party, a: Action, rest: Task, ok: bool)
    requires Quiet(Do(a, rest)) && !a.ReadState?
    ensures var o := Execute(me, p, a, rest, ok);
            && o.party == p && (o.started.Some? ==> Quiet(o.started.value))
            && (Quiet(o.rest) || (a.CheckDeadline? && p.state != Encrypted && Writes(o.rest, Error)))
  {
  }

  /** Replacing a task by one that writes no more than `Error` keeps the order. */
  lemma CalmerTaskKeepsOrder(me: Properties, p: Party, t: nat, o: Outcome)
    requires !Early(p.state) && LateOk(me, p) && t < |p.tasks| && o.party == p
    requires Quiet(o.rest) || Writes(o.rest, Error)
    requires o.started.Some? ==> Quiet(o.started.value)
    ensures LateOk(me, Ran(p, t, o))
  {
  }

  lemma ReadKeepsOrder(me: Properties, p: Party, t: nat, o: Outcome, f: Frame, m: Message)
    requires !Early(p.state) && LateOk(me, p) && t < |p.tasks| && o == Outcome(p, Branch(me, p.state, f, m), None, None)
    ensures LateOk(me, Ran(p, t, o))
  {
    BranchShape(me, p.state, f, m);
  }

  lemma KeyStoreKeepsOrder(me: Properties, p: Party, t: nat, ok: bool)
    requires !Early(p.state) && LateOk(me, p) && t < |p.tasks| && StoresKey(p.tasks[t])
    ensures LateOk(me, Ran(p, t, Execute(me, p, p.tasks[t].next, p.tasks[t].rest, ok)))
  {
    var o := Execute(me, p, p.tasks[t].next, p.tasks[t].rest, ok);
    var q := Ran(p, t, o);
    assert q.tasks == p.tasks[t := o.rest];
    if p.relyingKey.None? {
      assert p.state.Handshake? || p.state.Error?;
      assert forall u :: 0 <= u < |q.tasks| ==> !Completing(q.tasks[u]) && (Writes(q.tasks[u], HandshakePartial) ==> u == t);
    }
  }

  lemma CapsStoreKeepsOrder(me: Properties, p: Party, t: nat, ok: bool)
    requires !Early(p.state) && LateOk(me, p) && t < |p.tasks| && StoresCaps(p.tasks[t])
    ensures LateOk(me, Ran(p, t, Execute(me, p, p.tasks[t].next, p.tasks[t].rest, ok)))
  {
    var o := Execute(me, p, p.tasks[t].next, p.tasks[t].rest, ok);
    assert Completing(p.tasks[t]) && Completing(o.rest);
  }

  lemma WriteKeepsOrder(me: Properties, p: Party, t: nat, s: SignalState, ok: bool)
    requires !Early(p.state) && LateOk(me, p) && t < |p.tasks| && Writes(p.tasks[t], s)
    ensures !Early(s) && LateOk(me, Ran(p, t, Execute(me, p, p.tasks[t].next, p.tasks[t].rest, ok)))
  {
    assert Shaped(me, p.tasks[t]);
  }

  lemma LateAction(me: Properties, p: Party, t: nat, ok: bool)
    requires !Early(p.state) && LateOk(me, p) && t < |p.tasks| && p.tasks[t].Do?
    ensures Ordered(me, Ran(p, t, Execute(me, p, p.tasks[t].next, p.tasks[t].rest, ok)))
  {
    var task := p.tasks[t];
    var o := Execute(me, p, task.next, task.rest, ok);
    FlashWritesHandshake(me);
    if task.next.WriteState? {
      WriteKeepsOrder(me, p, t, task.next.state, ok);
    } else if task.next.ReadState? {
      ReadKeepsOrder(me, p, t, o, task.next.frame, task.next.message);
    } else if Quiet(task) {
      QuietAction(me, p, task.next, task.rest, ok);
      CalmerTaskKeepsOrder(me, p, t, o);
    } else if task.next.StoreKey? {
      KeyStoreKeepsOrder(me, p, t, ok);
    } else {
      CapsStoreKeepsOrder(me, p, t, ok);
    }
  }

  lemma InertAction(me: Properties, p: Party, ok: bool)
    requires p.setup.Do? && Inert(p.setup)
    ensures var o := Execute(me, p, p.setup.next, p.setup.rest, ok);
            o.party == p && Inert(o.rest) && (o.started.Some? ==> Quiet(o.started.value))
  {
  }

  lemma EarlySetup(me: Properties, p: Party, ok: bool)
    requires Early(p.state) && EarlyOk(me, p) && p.setup.Do?
    ensures var o := Execute(me, p, p.setup.next, p.setup.rest, ok);
            Ordered(me, StartedBy(o).(setup := o.rest))
  {
    RepeatingSendIsQuiet(FlashOut());
    var o := Execute(me, p, p.setup.next, p.setup.rest, ok);
    assert o.started.None? && o.party.tasks == p.tasks;
  }

  lemma LateSetup(me: Properties, p: Party, ok: bool)
    requires !Early(p.state) && LateOk(me, p) && p.setup.Do?
    ensures var o := Execute(me, p, p.setup.next, p.setup.rest, ok);
            LateOk(me, StartedBy(o).(setup := o.rest)) && o.party == p
  {
    InertAction(me, p, ok);
  }

  lemma AddedTaskKeepsOrder(me: Properties, p: Party, task: Task)
    requires Ordered(me, p) && (Fresh(task) || (Quiet(task) && p.relyingKey.Some?))
    ensures Ordered(me, AddTask(p, task))
  {
  }

  lemma CancelledTaskKeepsOrder(me: Properties, p: Party, t: nat)
    requires Ordered(me, p) && t < |p.tasks|
    ensures Ordered(me, p.(tasks := p.tasks[t := Done]))
  {
  }

  lemma ActionKeepsOrder(ids: seq<Properties>, w: World, step: Step)
    requires AllOrdered(ids, w) && FineGrain.Enabled(ids, w, step) && (step.RunTask? || step.RunSetup?)
    ensures Ordered(ids[step.i], FineGrain.Apply(ids, w, step).parties[step.i])
  {
    var me, p := ids[step.i], w.parties[step.i];
    if step.RunTask? {
      if Early(p.state) { EarlyAction(me, p, step.t, step.ok); } else { LateAction(me, p, step.t, step.ok); }
    } else {
      if Early(p.state) { EarlySetup(me, p, step.ok); } else { LateSetup(me, p, step.ok); }
    }
  }

  /** Every step keeps every end in order. */
  lemma StepKeepsOrder(ids: seq<Properties>, w: World, step: Step)
    requires AllOrdered(ids, w) && FineGrain.Enabled(ids, w, step)
    ensures AllOrdered(ids, FineGrain.Apply(ids, w, step))
  {
    match step
    case RunTask(_, _, _) => ActionKeepsOrder(ids, w, step);
    case RunSetup(_, _) => ActionKeepsOrder(ids, w, step);
    case Deliver(i, f) => AddedTaskKeepsOrder(ids[i], w.parties[i], Do(Decrypt(f), Done));
    case SendCall(i, payload) =>
      EchoIsQuiet(DataOut(ids[i], payload));
      AddedTaskKeepsOrder(ids[i], w.parties[i], Do(Encrypt(DataOut(ids[i], payload), true), Done));
    case CancelTask(i, t) => CancelledTaskKeepsOrder(ids[i], w.parties[i], t);
    case CancelSetup(_) =>
    case Inject(_) =>
  }

  lemma RunIsOrdered(ids: seq<Properties>, run: seq<World>, n: nat)
    requires FineGrain.IsRun(ids, run) && n < |run|
    ensures AllOrdered(ids, run[n])
  {
    forall w, w' | AllOrdered(ids, w) && FineGrain.Next(ids, w, w') ensures AllOrdered(ids, w') {
      var step :| FineGrain.Enabled(ids, w, step) && FineGrain.Apply(ids, w, step) == w';
      StepKeepsOrder(ids, w, step);
    }
    Runs.InvariantHolds(NewWorld(ids), FineGrain.NextOf(ids), w => AllOrdered(ids, w), run, n);
  }

  // ----- exactly when an end can fall back

  /** Some continuation of `w` brings end `i` into state `s`. */
  ghost predicate Reaches(ids: seq<Properties>, w: World, i: nat, s: SignalState) {
    exists more :: ReachesBy(ids, w, i, s, more)
  }

  ghost predicate ReachesBy(ids: seq<Properties>, w: World, i: nat, s: SignalState, more: seq<World>) {
    Runs.IsRun(w, FineGrain.NextOf(ids), more)
    && i < |more[|more| - 1].parties| && more[|more| - 1].parties[i].state == s
  }

  /** A handler past its state read and before its write of `s`. */
  predicate WritePending(p: Party, s: SignalState) {
    exists t :: 0 <= t < |p.tasks| && IsPending(p.tasks[t], s)
  }

  predicate IsPending(task: Task, s: SignalState) {
    task.Do? && task.next == WriteState(s)
  }

  /** Past `Handshake`, with nothing left that writes it. */
  predicate Past(me: Properties, p: Party) {
    Ordered(me, p) && p.state in {HandshakePartial, Encrypted, Error} && !WritePending(p, Handshake)
  }

  /** Encrypted, with nothing left that writes another state. */
  predicate Settled(me: Properties, p: Party) {
    Ordered(me, p) && p.state == Encrypted && !WritePending(p, Handshake) && !WritePending(p, Error)
  }

  /** What the next action of a task leaves pending. */
  lemma ActionPending(me: Properties, p: Party, task: Task, ok: bool)
    requires Shaped(me, task) && task.Do? && !Early(p.state)
    ensures var o := Execute(me, p, task.next, task.rest, ok);
            && !IsPending(o.rest, Handshake)
            && (IsPending(o.rest, Error) ==> p.state != Encrypted)
            && (o.started.Some? ==> !IsPending(o.started.value, Handshake) && !IsPending(o.started.value, Error))
            && o.party.state == (if task.next.WriteState? then task.next.state else p.state)
            && o.party.tasks == p.tasks
  {
    if task.next.ReadState? {
      BranchShape(me, p.state, task.next.frame, task.next.message);
    } else if Quiet(task) {
      QuietAction(me, p, task.next, task.rest, ok);
    }
  }

  lemma RanPending(me: Properties, p: Party, t: nat, ok: bool)
    requires Ordered(me, p) && !Early(p.state) && t < |p.tasks| && p.tasks[t].Do?
    ensures var p' := Ran(p, t, Execute(me, p, p.tasks[t].next, p.tasks[t].rest, ok));
            && (WritePending(p', Handshake) ==> WritePending(p, Handshake))
            && (WritePending(p', Error) && p.state == Encrypted ==> WritePending(p, Error))
            && p'.state == (if p.tasks[t].next.WriteState? then p.tasks[t].next.state else p.state)
  {
    ActionPending(me, p, p.tasks[t], ok);
    var p' := Ran(p, t, Execute(me, p, p.tasks[t].next, p.tasks[t].rest, ok));
    forall s, u | s in {Handshake, Error} && 0 <= u < |p'.tasks| && u != t && IsPending(p'.tasks[u], s)
      ensures WritePending(p, s)
    {
      assert u < |p.tasks| ==> p'.tasks[u] == p.tasks[u];
    }
  }

  lemma SetupPending(me: Properties, p: Party, ok: bool)
    requires Ordered(me, p) && !Early(p.state) && p.setup.Do?
    ensures var o := Execute(me, p, p.setup.next, p.setup.rest, ok);
            && (WritePending(StartedBy(o), Handshake) ==> WritePending(p, Handshake))
            && (WritePending(StartedBy(o), Error) ==> WritePending(p, Error))
            && StartedBy(o).state == p.state
  {
    InertAction(me, p, ok);
  }

  lemma AddedTaskPending(p: Party, task: Task)
    requires !IsPending(task, Handshake) && !IsPending(task, Error)
    ensures WritePending(AddTask(p, task), Handshake) ==> WritePending(p, Handshake)
    ensures WritePending(AddTask(p, task), Error) ==> WritePending(p, Error)
  {
  }

  lemma CancelledTaskPending(p: Party, t: nat)
    requires t < |p.tasks|
    ensures WritePending(p.(tasks := p.tasks[t := Done]), Handshake) ==> WritePending(p, Handshake)
    ensures WritePending(p.(tasks := p.tasks[t := Done]), Error) ==> WritePending(p, Error)
  {
    var tasks := p.tasks[t := Done];
    assert forall u :: 0 <= u < |tasks| && u != t ==> tasks[u] == p.tasks[u];
  }

  /** What a step can leave pending at end `i`, and what state it can write there. */
  lemma StepPending(ids: seq<Properties>, w: World, step: Step, i: nat)
    requires AllOrdered(ids, w) && FineGrain.Enabled(ids, w, step) && i < |ids| && !Early(w.parties[i].state)
    ensures var p, p' := w.parties[i], FineGrain.Apply(ids, w, step).parties[i];
            && (WritePending(p', Handshake) ==> WritePending(p, Handshake))
            && (WritePending(p', Error) && p.state == Encrypted ==> WritePending(p, Error))
            && (p'.state == p.state || WritePending(p, p'.state))
  {
    var p := w.parties[i];
    if step.RunTask? && step.i == i {
      RanPending(ids[i], p, step.t, step.ok);
      assert p.tasks[step.t].next.WriteState? ==> IsPending(p.tasks[step.t], p.tasks[step.t].next.state);
    } else if step.RunSetup? && step.i == i {
      SetupPending(ids[i], p, step.ok);
    } else if step.Deliver? && step.i == i {
      AddedTaskPending(p, Do(Decrypt(step.frame), Done));
    } else if step.SendCall? && step.i == i {
      AddedTaskPending(p, Do(Encrypt(DataOut(ids[i], step.payload), true), Done));
    } else if step.CancelTask? && step.i == i {
      CancelledTaskPending(p, step.t);
    }
  }

  /** The pending writes of an end past `Handshake`. */
  lemma PendingStates(me: Properties, p: Party, s: SignalState)
    requires Ordered(me, p) && !Early(p.state) && WritePending(p, s)
    ensures s in {Handshake, HandshakePartial, Encrypted, Error}
    ensures s == Handshake ==> me.isHost
    ensures s == HandshakePartial ==> p.state in {Handshake, Error}
  {
    var t :| 0 <= t < |p.tasks| && IsPending(p.tasks[t], s);
    assert Shaped(me, p.tasks[t]);
  }

  lemma PastStays(ids: seq<Properties>, w: World, step: Step, i: nat)
    requires AllOrdered(ids, w) && FineGrain.Enabled(ids, w, step) && i < |ids| && Past(ids[i], w.parties[i])
    ensures Past(ids[i], FineGrain.Apply(ids, w, step).parties[i])
  {
    StepPending(ids, w, step, i);
    StepKeepsOrder(ids, w, step);
    var s := FineGrain.Apply(ids, w, step).parties[i].state;
    if s != w.parties[i].state {
      PendingStates(ids[i], w.parties[i], s);
    }
  }

  lemma SettledStays(ids: seq<Properties>, w: World, step: Step, i: nat)
    requires AllOrdered(ids, w) && FineGrain.Enabled(ids, w, step) && i < |ids| && Settled(ids[i], w.parties[i])
    ensures Settled(ids[i], FineGrain.Apply(ids, w, step).parties[i])
  {
    StepPending(ids, w, step, i);
    StepKeepsOrder(ids, w, step);
    var s := FineGrain.Apply(ids, w, step).parties[i].state;
    if s != w.parties[i].state {
      PendingStates(ids[i], w.parties[i], s);
    }
  }

  /** Past `Handshake` for good, in every continuation. */
  lemma PastForever(ids: seq<Properties>, w: World, i: nat, more: seq<World>, n: nat)
    requires AllOrdered(ids, w) && i < |ids| && Past(ids[i], w.parties[i])
    requires Runs.IsRun(w, FineGrain.NextOf(ids), more) && n < |more|
    ensures |more[n].parties| == |ids| && more[n].parties[i].state in {HandshakePartial, Encrypted, Error}
  {
    var inv := (v: World) => AllOrdered(ids, v) && Past(ids[i], v.parties[i]);
    forall v, v' | inv(v) && FineGrain.NextOf(ids)(v, v') ensures inv(v') {
      var step :| FineGrain.Enabled(ids, v, step) && FineGrain.Apply(ids, v, step) == v';
      PastStays(ids, v, step, i);
      StepKeepsOrder(ids, v, step);
    }
    Runs.InvariantHolds(w, FineGrain.NextOf(ids), inv, more, n);
  }

  lemma SettledForever(ids: seq<Properties>, w: World, i: nat, more: seq<World>, n: nat)
    requires AllOrdered(ids, w) && i < |ids| && Settled(ids[i], w.parties[i])
    requires Runs.IsRun(w, FineGrain.NextOf(ids), more) && n < |more|
    ensures |more[n].parties| == |ids| && more[n].parties[i].state == Encrypted
  {
    var inv := (v: World) => AllOrdered(ids, v) && Settled(ids[i], v.parties[i]);
    forall v, v' | inv(v) && FineGrain.NextOf(ids)(v, v') ensures inv(v') {
      var step :| FineGrain.Enabled(ids, v, step) && FineGrain.Apply(ids, v, step) == v';
      SettledStays(ids, v, step, i);
      StepKeepsOrder(ids, v, step);
    }
    Runs.InvariantHolds(w, FineGrain.NextOf(ids), inv, more, n);
  }

  // ----- and it does, when a late write is pending

  lemma ContinueBy(ids: seq<Properties>, w: World, more: seq<World>, step: Step) returns (longer: seq<World>)
    requires Runs.IsRun(w, FineGrain.NextOf(ids), more) && |more[|more| - 1].parties| == |ids|
    requires FineGrain.Enabled(ids, more[|more| - 1], step)
    ensures Runs.IsRun(w, FineGrain.NextOf(ids), longer)
    ensures longer == more + [FineGrain.Apply(ids, more[|more| - 1], step)]
  {
    var last := more[|more| - 1];
    var next := FineGrain.Apply(ids, last, step);
    assert FineGrain.NextOf(ids)(last, next);
    longer := more + [next];
    Runs.Extend(w, FineGrain.NextOf(ids), more, next);
  }

  /** One more action of task `t` of end `i`. */
  lemma Continue(ids: seq<Properties>, w: World, more: seq<World>, i: nat, t: nat, ok: bool) returns (longer: seq<World>)
    requires Runs.IsRun(w, FineGrain.NextOf(ids), more) && |more[|more| - 1].parties| == |ids| && i < |ids|
    requires t < |more[|more| - 1].parties[i].tasks| && more[|more| - 1].parties[i].tasks[t].Do?
    ensures Runs.IsRun(w, FineGrain.NextOf(ids), longer)
    ensures var (last, p) := (more[|more| - 1], more[|more| - 1].parties[i]);
            var o := Execute(ids[i], p, p.tasks[t].next, p.tasks[t].rest, ok);
            longer == more + [World(last.parties[i := Ran(p, t, o)], last.net + SentBy(o))]
  {
    longer := ContinueBy(ids, w, more, RunTask(i, t, ok));
  }

  lemma PendingWriteHappens(ids: seq<Properties>, w: World, i: nat, s: SignalState)
    requires |w.parties| == |ids| && i < |ids| && WritePending(w.parties[i], s)
    ensures Reaches(ids, w, i, s)
  {
    var t :| 0 <= t < |w.parties[i].tasks| && IsPending(w.parties[i].tasks[t], s);
    var more := Continue(ids, w, [w], i, t, true);
    assert ReachesBy(ids, w, i, s, more);
  }

  /** Exactly when an end can fall back from `HandshakePartial` to `Handshake`, in
      every reachable world: when a flash handler is past its state read and
      before its write. */
  lemma HandshakeReturnsExactly(ids: seq<Properties>, run: seq<World>, n: nat, i: nat)
    requires FineGrain.IsRun(ids, run) && n < |run| && i < |ids|
    ensures |run[n].parties| == |ids|
    ensures run[n].parties[i].state == HandshakePartial ==>
              (Reaches(ids, run[n], i, Handshake) <==> WritePending(run[n].parties[i], Handshake))
  {
    RunIsOrdered(ids, run, n);
    var w, p := run[n], run[n].parties[i];
    if WritePending(p, Handshake) {
      PendingWriteHappens(ids, w, i, Handshake);
    } else if p.state == HandshakePartial {
      forall more | Runs.IsRun(w, FineGrain.NextOf(ids), more) ensures !ReachesBy(ids, w, i, Handshake, more) {
        PastForever(ids, w, i, more, |more| - 1);
      }
    }
  }

  /** A late flash handler also starts a deadline, which then finds the host in `Handshake`. */
  lemma LateFlashFails(ids: seq<Properties>, w: World, i: nat, t: nat)
    requires |w.parties| == |ids| && i < |ids| && t < |w.parties[i].tasks| && w.parties[i].tasks[t] == FlashTask(ids[i])
    ensures Reaches(ids, w, i, Error)
  {
    var count := |w.parties[i].tasks|;
    var more := Continue(ids, w, [w], i, t, true);
    more := Continue(ids, w, more, i, t, true);
    more := Continue(ids, w, more, i, count, true);
    more := Continue(ids, w, more, i, count, true);
    assert ReachesBy(ids, w, i, Error, more);
  }

  /** Exactly when an encrypted end can be lost, in every reachable world: when a
      write of another state is pending. Then it can also fail; otherwise it stays
      encrypted in every continuation. */
  lemma EncryptedIsLostExactly(ids: seq<Properties>, run: seq<World>, n: nat, i: nat)
    requires FineGrain.IsRun(ids, run) && n < |run| && i < |ids|
    ensures |run[n].parties| == |ids|
    ensures var p := run[n].parties[i];
            var pending := WritePending(p, Handshake) || WritePending(p, Error);
            p.state == Encrypted ==>
              && (Reaches(ids, run[n], i, Error) <==> pending)
              && ((exists s :: s != Encrypted && Reaches(ids, run[n], i, s)) <==> pending)
              && (pending <==> exists s :: s != Encrypted && WritePending(p, s))
  {
    RunIsOrdered(ids, run, n);
    var w, p := run[n], run[n].parties[i];
    if p.state == Encrypted {
      forall s | WritePending(p, s) ensures s in {Handshake, Encrypted, Error} {
        PendingStates(ids[i], p, s);
      }
      if WritePending(p, Error) {
        PendingWriteHappens(ids, w, i, Error);
      } else if WritePending(p, Handshake) {
        var t :| 0 <= t < |p.tasks| && IsPending(p.tasks[t], Handshake);
        assert Shaped(ids[i], p.tasks[t]);
        LateFlashFails(ids, w, i, t);
      } else {
        forall s, more | s != Encrypted && Runs.IsRun(w, FineGrain.NextOf(ids), more) ensures !ReachesBy(ids, w, i, s, more) {
          SettledForever(ids, w, i, more, |more| - 1);
        }
      }
    }
  }

  /** The states of one end otherwise only climb: a step that takes its rank down,
      or takes it out of `Encrypted`, comes from `Error` or is one of the two late
      writes. */
  lemma OnlyLateWritesFallBack(ids: seq<Properties>, run: seq<World>, n: nat, step: Step, i: nat)
    requires FineGrain.IsRun(ids, run) && n < |run| && i < |ids|
    requires |run[n].parties| == |ids| && FineGrain.Enabled(ids, run[n], step)
    ensures var p, s := run[n].parties[i], FineGrain.Apply(ids, run[n], step).parties[i].state;
            Rank(s) < Rank(p.state) || (p.state == Encrypted && s != Encrypted) ==>
              || p.state == Error
              || (s == Handshake && ids[i].isHost && WritePending(p, Handshake))
              || (s == Error && WritePending(p, Error))
  {
    RunIsOrdered(ids, run, n);
    var p, s := run[n].parties[i], FineGrain.Apply(ids, run[n], step).parties[i].state;
    if !Early(p.state) {
      StepPending(ids, run[n], step, i);
      if s != p.state {
        PendingStates(ids[i], p, s);
      }
    } else {
      EarlyClimbs(ids, run[n], step, i);
    }
  }

  lemma EarlySetupClimbs(me: Properties, p: Party, ok: bool)
    requires Early(p.state) && EarlyOk(me, p) && p.setup.Do?
    ensures Rank(p.state) <= Rank(Execute(me, p, p.setup.next, p.setup.rest, ok).party.state)
  {
  }

  lemma EarlyClimbs(ids: seq<Properties>, w: World, step: Step, i: nat)
    requires AllOrdered(ids, w) && FineGrain.Enabled(ids, w, step) && i < |ids| && Early(w.parties[i].state)
    ensures Rank(w.parties[i].state) <= Rank(FineGrain.Apply(ids, w, step).parties[i].state)
  {
    var me, p := ids[i], w.parties[i];
    if step.RunSetup? && step.i == i {
      EarlySetupClimbs(me, p, step.ok);
    } else if step.RunTask? && step.i == i {
      var o := Execute(me, p, p.tasks[step.t].next, p.tasks[step.t].rest, step.ok);
      assert Rank(p.state) <= Rank(o.party.state);
      assert Ran(p, step.t, o).state == o.party.state;
    } else {
      assert FineGrain.Apply(ids, w, step).parties[i].state == p.state;
    }
  }

  // ----- exactly when an end that has its key gets past `Handshake`

  /** A handler that will write `HandshakePartial` or `Encrypted`, whatever it finds. */
  predicate Advances(task: Task) {
    Writes(task, HandshakePartial) || Completing(task)
  }

  predicate AdvancePending(p: Party) {
    exists t :: 0 <= t < |p.tasks| && Advances(p.tasks[t])
  }

  predicate Halted(me: Properties, p: Party) {
    Ordered(me, p) && p.relyingKey.Some? && p.state in {Handshake, Error} && !AdvancePending(p)
  }

  lemma HaltedAction(me: Properties, p: Party, task: Task, ok: bool)
    requires Shaped(me, task) && task.Do? && !Advances(task) && p.relyingKey.Some? && p.state in {Handshake, Error}
    ensures var o := Execute(me, p, task.next, task.rest, ok);
            && !Advances(o.rest) && (o.started.Some? ==> !Advances(o.started.value))
            && o.party.state in {Handshake, Error} && o.party.tasks == p.tasks
  {
    if task.next.ReadState? {
      BranchShape(me, p.state, task.next.frame, task.next.message);
    } else if Quiet(task) {
      QuietAction(me, p, task.next, task.rest, ok);
    } else {
      FlashWritesHandshake(me);
    }
  }

  lemma HaltedStays(ids: seq<Properties>, w: World, step: Step, i: nat)
    requires AllOrdered(ids, w) && FineGrain.Enabled(ids, w, step) && i < |ids| && Halted(ids[i], w.parties[i])
    ensures Halted(ids[i], FineGrain.Apply(ids, w, step).parties[i])
  {
    var p, p' := w.parties[i], FineGrain.Apply(ids, w, step).parties[i];
    StepKeepsOrder(ids, w, step);
    StepWritesOnce(ids, w, step, i);
    if step.RunTask? && step.i == i {
      HaltedAction(ids[i], p, p.tasks[step.t], step.ok);
      forall u | 0 <= u < |p'.tasks| && u != step.t ensures !Advances(p'.tasks[u]) {
        assert u < |p.tasks| ==> p'.tasks[u] == p.tasks[u];
      }
    } else if step.RunSetup? && step.i == i {
      InertAction(ids[i], p, step.ok);
    } else if step.CancelTask? && step.i == i {
      assert forall u :: 0 <= u < |p.tasks| && u != step.t ==> p.tasks[step.t := Done][u] == p.tasks[u];
    }
  }

  lemma HaltedForever(ids: seq<Properties>, w: World, i: nat, more: seq<World>, n: nat)
    requires AllOrdered(ids, w) && i < |ids| && Halted(ids[i], w.parties[i])
    requires Runs.IsRun(w, FineGrain.NextOf(ids), more) && n < |more|
    ensures |more[n].parties| == |ids| && more[n].parties[i].state in {Handshake, Error}
  {
    var inv := (v: World) => AllOrdered(ids, v) && Halted(ids[i], v.parties[i]);
    forall v, v' | inv(v) && FineGrain.NextOf(ids)(v, v') ensures inv(v') {
      var step :| FineGrain.Enabled(ids, v, step) && FineGrain.Apply(ids, v, step) == v';
      HaltedStays(ids, v, step, i);
      StepKeepsOrder(ids, v, step);
    }
    Runs.InvariantHolds(w, FineGrain.NextOf(ids), inv, more, n);
  }

  lemma AdvanceHappens(ids: seq<Properties>, w: World, i: nat, t: nat)
    requires |w.parties| == |ids| && i < |ids| && t < |w.parties[i].tasks| && Advances(w.parties[i].tasks[t])
    ensures Reaches(ids, w, i, HandshakePartial) || Reaches(ids, w, i, Encrypted)
  {
    var task := w.parties[i].tasks[t];
    var more := Continue(ids, w, [w], i, t, true);
    if StoresCaps(task) {
      more := Continue(ids, w, more, i, t, true);
    }
    assert ReachesBy(ids, w, i, if Writes(task, HandshakePartial) then HandshakePartial else Encrypted, more);
  }

  /** Exactly when an end that stored its peer's key, but is in `Handshake` or failed,
      can still get past it, in every reachable world: when the handler that stored
      the key has still to write the state, or a capabilities handler to complete. */
  lemma AdvancesExactly(ids: seq<Properties>, run: seq<World>, n: nat, i: nat)
    requires FineGrain.IsRun(ids, run) && n < |run| && i < |ids|
    ensures |run[n].parties| == |ids|
    ensures var (w, p) := (run[n], run[n].parties[i]);
            p.relyingKey.Some? && p.state in {Handshake, Error} ==>
              (Reaches(ids, w, i, HandshakePartial) || Reaches(ids, w, i, Encrypted) <==> AdvancePending(p))
  {
    RunIsOrdered(ids, run, n);
    var w, p := run[n], run[n].parties[i];
    if p.relyingKey.Some? && p.state in {Handshake, Error} {
      if t :| 0 <= t < |p.tasks| && Advances(p.tasks[t]) {
        AdvanceHappens(ids, w, i, t);
      } else {
        forall s, more | s in {HandshakePartial, Encrypted} && Runs.IsRun(w, FineGrain.NextOf(ids), more)
          ensures !ReachesBy(ids, w, i, s, more)
        {
          HaltedForever(ids, w, i, more, |more| - 1);
        }
      }
    }
  }
}
