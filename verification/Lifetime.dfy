/** The public status of a session. */
module SessionStates {
  datatype SessionState = Created | Signaling | Ready | Linking | Connected | Disconnected
}

/**
 A session's whole life: every interleaving of operations, request admissions,
 task steps, aborts and closers over one `SessionControl`.
 */
module Lifetime {
  import opened Common
  import opened Admission
  import opened SessionStates
  import Runs

  /** How far the one shared initialisation of `close_result` has got. */
  datatype Closing =
    | NotClosing
    | SendingClose
    | TakingTasks
    | Draining
    | TransportTeardown
    | SignalingTeardown
    | WritingStatus
    | Resolved

  /** `admitted` counts the permits of requests admitted but not yet spawned;
      `draining` are the tasks moved into the closing future; `started` logs the
      handles that spawns returned, and `ended` the tasks whose future is gone. */
  datatype World = World(
    control: Control,
    admitted: nat,
    draining: map<nat, Task>,
    closing: Closing,
    status: SessionState,
    transportTeardowns: nat,
    signalingTeardowns: nat,
    started: set<nat>,
    ended: set<nat>)

  const NEW_WORLD := World(NEW_CONTROL, 0, map[], NotClosing, Created, 0, 0, {}, {})

  datatype Step =
    | StartOperation                        // run_operation, or an event loop, spawns a task
    | AdmitRequest                          // dispatch_request takes a permit
    | SpawnHandler                          // dispatch_request spawns its handler
    | WriteStatus(t: nat, s: SessionState)  // a live task sets the status
    | ReplySent(t: nat)                     // a handler drops its permit after its reply
    | TaskEnds(t: nat)                      // completion, panic, or destruction after an abort
    | AbortTask(t: nat)                     // the caller of an operation drops its future
    | CloseControl                          // close() or the drop of the session
    | StartClosing                          // the first closer enters the shared initialisation
    | CloseMessageDone
    | TakeTasks
    | JoinTask(t: nat)
    | AllJoined
    | TransportDown
    | SignalingDown
    | ClosingDone

  function TaskOf(w: World, t: nat): Option<Task> {
    if t in w.control.tasks then Some(w.control.tasks[t])
    else if t in w.draining then Some(w.draining[t])
    else None
  }

  predicate IsLive(w: World, t: nat) {
    TaskOf(w, t).Some? && TaskOf(w, t).value.live
  }

  function Update(w: World, t: nat, task: Task): World {
    if t in w.control.tasks then w.(control := w.control.(tasks := w.control.tasks[t := task]))
    else w.(draining := w.draining[t := task])
  }

  predicate CanStep(w: World, s: Step) {
    match s
    case StartOperation => true
    case AdmitRequest => true
    case SpawnHandler => w.admitted > 0
    case WriteStatus(t, _) => IsLive(w, t)
    case ReplySent(t) => IsLive(w, t) && TaskOf(w, t).value.permit
    case TaskEnds(t) => IsLive(w, t)
    case AbortTask(t) => TaskOf(w, t).Some?
    case CloseControl => true
    case StartClosing => w.control.closed && w.closing == NotClosing
    case CloseMessageDone => w.closing == SendingClose
    case TakeTasks => w.closing == TakingTasks
    case JoinTask(t) => w.closing == Draining && t in w.draining && !w.draining[t].live
    case AllJoined => w.closing == Draining && w.draining == map[]
    case TransportDown => w.closing == TransportTeardown
    case SignalingDown => w.closing == SignalingTeardown
    case ClosingDone => w.closing == WritingStatus
  }

  /** Drops the permit of task `t`, if it holds one. */
  function DropPermitOf(w: World, t: nat): World
    requires TaskOf(w, t).Some?
  {
    var task := TaskOf(w, t).value;
    if task.permit then Update(w.(control := ReleasePermit(w.control)), t, task.(permit := false)) else w
  }

  function Started(w: World, handle: Result<nat>): World {
    if handle.Ok? then w.(started := w.started + {handle.value}) else w
  }

  function Perform(w: World, s: Step): World
    requires CanStep(w, s)
  {
    match s
    case StartOperation =>
      var (control, handle) := Spawn(w.control, false);
      Started(w.(control := control), handle)
    case AdmitRequest =>
      var (control, permit) := AdmitHandler(w.control);
      w.(control := control, admitted := if permit.Ok? then w.admitted + 1 else w.admitted)
    case SpawnHandler =>
      var (control, handle) := Spawn(w.control, true);
      Started(w.(control := if handle.Ok? then control else ReleasePermit(control), admitted := w.admitted - 1), handle)
    case WriteStatus(_, s) => w.(status := s)
    case ReplySent(t) => DropPermitOf(w, t)
    case TaskEnds(t) =>
      var dropped := DropPermitOf(w, t);
      Update(dropped, t, TaskOf(dropped, t).value.(live := false)).(ended := w.ended + {t})
    case AbortTask(t) => Update(w, t, TaskOf(w, t).value.(aborted := true))
    case CloseControl => w.(control := Close(w.control))
    case StartClosing => w.(closing := SendingClose)
    case CloseMessageDone => w.(closing := TakingTasks)
    case TakeTasks =>
      w.(draining := w.control.tasks, control := w.control.(tasks := map[]), closing := Draining)
    case JoinTask(t) => w.(draining := w.draining - {t})
    case AllJoined => w.(closing := TransportTeardown)
    case TransportDown => w.(transportTeardowns := w.transportTeardowns + 1, closing := SignalingTeardown)
    case SignalingDown => w.(signalingTeardowns := w.signalingTeardowns + 1, closing := WritingStatus)
    case ClosingDone => w.(status := Disconnected, closing := Resolved)
  }

  ghost predicate Next(w: World, w': World) {
    exists s :: CanStep(w, s) && Perform(w, s) == w'
  }

  ghost predicate IsRun(run: seq<World>) {
    Runs.IsRun(NEW_WORLD, Next, run)
  }

  // ----- the invariant

  function Stage(c: Closing): nat {
    match c
    case NotClosing => 0
    case SendingClose => 1
    case TakingTasks => 2
    case Draining => 3
    case TransportTeardown => 4
    case SignalingTeardown => 5
    case WritingStatus => 6
    case Resolved => 7
  }

  /** The live tasks that hold a permit. */
  function Holders(w: World): set<nat> {
    WithPermit(w.control.tasks) + WithPermit(w.draining)
  }

  function WithPermit(tasks: map<nat, Task>): set<nat> {
    set t | t in tasks && tasks[t].permit
  }

  predicate TasksOk(w: World) {
    && (forall t :: t in w.control.tasks ==> t < w.control.nextTask)
    && (forall t :: t in w.control.tasks && w.control.tasks[t].permit ==> w.control.tasks[t].live)
    && (forall t :: t in w.draining && w.draining[t].permit ==> w.draining[t].live)
    && (w.control.closed ==> forall t :: t in w.control.tasks ==> w.control.tasks[t].aborted)
    && (forall t :: t in w.draining ==> w.draining[t].aborted)
  }

  predicate PermitsOk(w: World) {
    0 <= w.control.activeHandlers == w.admitted + |Holders(w)| <= MAX_ACTIVE_HANDLERS
  }

  predicate ClosingOk(w: World) {
    && w.control.shutdown == w.control.closed
    && (Stage(w.closing) >= 1 ==> w.control.closed)
    && (Stage(w.closing) < 3 ==> w.draining == map[])
    && (Stage(w.closing) >= 3 ==> w.control.tasks == map[])
    && (Stage(w.closing) >= 4 ==> w.draining == map[])
    && w.transportTeardowns == (if Stage(w.closing) >= 5 then 1 else 0)
    && w.signalingTeardowns == (if Stage(w.closing) >= 6 then 1 else 0)
    && (w.closing == Resolved ==> w.status == Disconnected)
  }

  predicate Inv(w: World) {
    TasksOk(w) && PermitsOk(w) && ClosingOk(w)
  }

  lemma WithPermitUpdate(tasks: map<nat, Task>, t: nat, task: Task)
    ensures WithPermit(tasks[t := task]) == if task.permit then WithPermit(tasks) + {t} else WithPermit(tasks) - {t}
  {
  }

  lemma WithPermitOthers(tasks: map<nat, Task>, gone: set<nat>)
    requires forall t :: t in gone && t in tasks ==> !tasks[t].permit
    ensures WithPermit(tasks - gone) == WithPermit(tasks) == WithPermit(AbortAll(tasks))
  {
  }

  lemma ControlKeepsTasks(w: World, s: Step)
    requires Inv(w) && CanStep(w, s) && !s.TaskEnds? && !s.ReplySent? && !s.AbortTask?
    ensures TasksOk(Perform(w, s))
  {
  }

  /** Any change of one task that keeps its abort and leaves it no permit without life. */
  lemma UpdateKeepsTasks(w: World, t: nat, task: Task)
    requires TasksOk(w) && TaskOf(w, t).Some?
    requires (task.permit ==> task.live) && (TaskOf(w, t).value.aborted ==> task.aborted)
    ensures TasksOk(Update(w, t, task))
  {
  }

  lemma DropKeepsTasks(w: World, t: nat)
    requires TasksOk(w) && IsLive(w, t)
    ensures TasksOk(DropPermitOf(w, t)) && IsLive(DropPermitOf(w, t), t)
    ensures !TaskOf(DropPermitOf(w, t), t).value.permit
  {
    var task := TaskOf(w, t).value;
    var released := w.(control := ReleasePermit(w.control));
    assert TasksOk(released) && TaskOf(released, t) == TaskOf(w, t);
    UpdateKeepsTasks(released, t, task.(permit := false));
  }

  lemma TaskKeepsTasks(w: World, s: Step)
    requires Inv(w) && CanStep(w, s) && (s.TaskEnds? || s.ReplySent? || s.AbortTask?)
    ensures TasksOk(Perform(w, s))
  {
    if s.AbortTask? {
      UpdateKeepsTasks(w, s.t, TaskOf(w, s.t).value.(aborted := true));
    } else {
      DropKeepsTasks(w, s.t);
      if s.TaskEnds? {
        var dropped := DropPermitOf(w, s.t);
        UpdateKeepsTasks(dropped, s.t, TaskOf(dropped, s.t).value.(live := false));
      }
    }
  }

  lemma StepKeepsTasks(w: World, s: Step)
    requires Inv(w) && CanStep(w, s)
    ensures TasksOk(Perform(w, s))
  {
    if s.TaskEnds? || s.ReplySent? || s.AbortTask? {
      TaskKeepsTasks(w, s);
    } else {
      ControlKeepsTasks(w, s);
    }
  }

  predicate IsClosing(s: Step) {
    || s.StartClosing? || s.CloseMessageDone? || s.TakeTasks? || s.JoinTask? || s.AllJoined?
    || s.TransportDown? || s.SignalingDown? || s.ClosingDone?
  }

  lemma ClosingKeepsClosing(w: World, s: Step)
    requires Inv(w) && CanStep(w, s) && IsClosing(s)
    ensures ClosingOk(Perform(w, s))
  {
  }

  lemma WorkKeepsClosing(w: World, s: Step)
    requires Inv(w) && CanStep(w, s) && !IsClosing(s)
    ensures ClosingOk(Perform(w, s))
  {
  }

  lemma StepKeepsClosing(w: World, s: Step)
    requires Inv(w) && CanStep(w, s)
    ensures ClosingOk(Perform(w, s))
  {
    if IsClosing(s) {
      ClosingKeepsClosing(w, s);
    } else {
      WorkKeepsClosing(w, s);
    }
  }

  /** A task is in one place only, so its permit is counted once. */
  lemma Disjoint(w: World)
    requires Inv(w)
    ensures WithPermit(w.control.tasks) !! WithPermit(w.draining)
  {
  }

  lemma SetTaskHolders(w: World, t: nat, task: Task)
    requires Inv(w) && TaskOf(w, t).Some?
    ensures Holders(Update(w, t, task)) == if task.permit then Holders(w) + {t} else Holders(w) - {t}
  {
    Disjoint(w);
    WithPermitUpdate(w.control.tasks, t, task);
    WithPermitUpdate(w.draining, t, task);
  }

  lemma DropKeepsPermits(w: World, t: nat)
    requires Inv(w) && IsLive(w, t)
    ensures PermitsOk(DropPermitOf(w, t)) && Holders(DropPermitOf(w, t)) == Holders(w) - {t}
  {
    var task := TaskOf(w, t).value;
    if task.permit {
      assert t in Holders(w);
      SetTaskHolders(w, t, task.(permit := false));
      assert Holders(DropPermitOf(w, t)) == Holders(Update(w, t, task.(permit := false)));
    } else {
      assert t !in Holders(w);
      assert Holders(w) - {t} == Holders(w);
    }
  }

  lemma SpawnHolders(w: World, permit: bool)
    requires Inv(w) && !w.control.closed
    ensures w.control.nextTask !in Holders(w)
    ensures Holders(w.(control := Spawn(w.control, permit).0)) == if permit then Holders(w) + {w.control.nextTask} else Holders(w)
  {
    var c := w.control;
    var kept := c.tasks - Finished(c.tasks);
    WithPermitOthers(c.tasks, Finished(c.tasks));
    WithPermitUpdate(kept, c.nextTask, Task(true, false, permit));
  }

  lemma SpawnKeepsPermits(w: World, s: Step)
    requires Inv(w) && CanStep(w, s) && (s.StartOperation? || s.SpawnHandler?)
    ensures PermitsOk(Perform(w, s))
  {
    if !w.control.closed {
      SpawnHolders(w, s.SpawnHandler?);
      assert Holders(Perform(w, s)) == Holders(w.(control := Spawn(w.control, s.SpawnHandler?).0));
    } else {
      assert Holders(Perform(w, s)) == Holders(w);
    }
  }

  lemma TaskEndKeepsPermits(w: World, t: nat)
    requires Inv(w) && IsLive(w, t)
    ensures PermitsOk(Perform(w, TaskEnds(t)))
  {
    DropKeepsPermits(w, t);
    var dropped := DropPermitOf(w, t);
    EndHolders(dropped, t);
    assert Perform(w, TaskEnds(t)).control.activeHandlers == dropped.control.activeHandlers;
  }

  lemma AbortKeepsPermits(w: World, t: nat)
    requires Inv(w) && TaskOf(w, t).Some?
    ensures PermitsOk(Perform(w, AbortTask(t)))
  {
    SetTaskHolders(w, t, TaskOf(w, t).value.(aborted := true));
    assert Holders(Perform(w, AbortTask(t))) == Holders(w);
  }

  lemma CloserKeepsPermits(w: World, s: Step)
    requires Inv(w) && CanStep(w, s) && (s.CloseControl? || s.TakeTasks? || s.JoinTask?)
    ensures PermitsOk(Perform(w, s))
  {
    WithPermitOthers(w.control.tasks, {});
    assert WithPermit(map[]) == {};
    if s.JoinTask? {
      WithPermitOthers(w.draining, {s.t});
    }
    assert Holders(Perform(w, s)) == Holders(w);
  }

  lemma StepKeepsPermits(w: World, s: Step)
    requires Inv(w) && CanStep(w, s)
    ensures PermitsOk(Perform(w, s))
  {
    if s.StartOperation? || s.SpawnHandler? {
      SpawnKeepsPermits(w, s);
    } else if s.ReplySent? {
      DropKeepsPermits(w, s.t);
    } else if s.TaskEnds? {
      TaskEndKeepsPermits(w, s.t);
    } else if s.AbortTask? {
      AbortKeepsPermits(w, s.t);
    } else if s.CloseControl? || s.TakeTasks? || s.JoinTask? {
      CloserKeepsPermits(w, s);
    }
  }

  lemma EndHolders(w: World, t: nat)
    requires TaskOf(w, t).Some? && !TaskOf(w, t).value.permit
    ensures Holders(Update(w, t, TaskOf(w, t).value.(live := false))) == Holders(w)
  {
    WithPermitUpdate(w.control.tasks, t, TaskOf(w, t).value.(live := false));
    WithPermitUpdate(w.draining, t, TaskOf(w, t).value.(live := false));
  }

  lemma StepKeepsInv(w: World, s: Step)
    requires Inv(w) && CanStep(w, s)
    ensures Inv(Perform(w, s))
  {
    StepKeepsTasks(w, s);
    StepKeepsClosing(w, s);
    StepKeepsPermits(w, s);
  }

  lemma RunInvariant(run: seq<World>, n: nat)
    requires IsRun(run) && n < |run|
    ensures Inv(run[n])
  {
    forall w, w' | Inv(w) && Next(w, w') ensures Inv(w') {
      var s :| CanStep(w, s) && Perform(w, s) == w';
      StepKeepsInv(w, s);
    }
    Runs.InvariantHolds(NEW_WORLD, Next, Inv, run, n);
  }

  // ----- what every life promises

  /** Permits are conserved: the counter is the number of permits in existence,
      is at most 256, and no drop of a permit can underflow it. */
  lemma PermitConservation(run: seq<World>, n: nat)
    requires IsRun(run) && n < |run|
    ensures var w := run[n];
            && w.control.activeHandlers == w.admitted + |Holders(w)| <= MAX_ACTIVE_HANDLERS
            && (w.admitted > 0 || Holders(w) != {} ==> w.control.activeHandlers > 0)
            && (forall t :: t in Holders(w) ==> IsLive(w, t))
  {
    RunInvariant(run, n);
  }

  /** Ending a task, however it ends, gives back its permit exactly once. */
  lemma EveryEndReleasesOnce(run: seq<World>, n: nat, t: nat)
    requires IsRun(run) && n < |run| && IsLive(run[n], t)
    ensures var w := run[n];
            var w' := Perform(w, TaskEnds(t));
            && !IsLive(w', t) && t !in Holders(w')
            && w'.control.activeHandlers == w.control.activeHandlers - (if t in Holders(w) then 1 else 0)
            && (forall s :: s != t ==> TaskOf(w', s) == TaskOf(w, s))
  {
    RunInvariant(run, n);
  }

  ghost predicate ClosedFor(w: World) {
    && w.closing == Resolved && w.control.closed
    && (forall t :: !IsLive(w, t))
    && w.transportTeardowns == 1 && w.signalingTeardowns == 1
    && w.status == Disconnected
    && (forall permit :: Spawn(w.control, permit) == (w.control, Err(SessionClosed)))
    && AdmitHandler(w.control) == (w.control, Err(SessionClosed))
  }

  lemma ResolvedStays(w: World, s: Step)
    requires CanStep(w, s) && w.closing == Resolved
    ensures Perform(w, s).closing == Resolved
  {
  }

  /** Close is final: from the moment it resolves, in every continuation, no
      task is live, each teardown ran once, the status is `Disconnected`, and
      every operation and admission is refused. */
  lemma CloseIsFinal(run: seq<World>, m: nat, n: nat)
    requires IsRun(run) && m <= n < |run| && run[m].closing == Resolved
    ensures ClosedFor(run[n])
  {
    var rel := (w: World, w': World) => w.closing == Resolved ==> w'.closing == Resolved;
    forall w, w' | Inv(w) && Next(w, w') ensures Inv(w') && rel(w, w') {
      var s :| CanStep(w, s) && Perform(w, s) == w';
      StepKeepsInv(w, s);
      if w.closing == Resolved {
        ResolvedStays(w, s);
      }
    }
    Runs.RelationHolds(NEW_WORLD, Next, Inv, rel, run, m, n);
  }

  /** Closing takes hold at once: after any `close`, before it resolves, nothing
      new starts and every task still to be joined has been aborted. */
  lemma ClosedAdmitsNothing(run: seq<World>, n: nat)
    requires IsRun(run) && n < |run| && run[n].control.closed
    ensures forall permit :: Spawn(run[n].control, permit) == (run[n].control, Err(SessionClosed))
    ensures AdmitHandler(run[n].control) == (run[n].control, Err(SessionClosed))
    ensures forall t :: TaskOf(run[n], t).Some? ==> TaskOf(run[n], t).value.aborted
  {
    RunInvariant(run, n);
  }

  // ----- close does resolve

  function LiveOf(tasks: map<nat, Task>): set<nat> {
    set t | t in tasks && tasks[t].live
  }

  /** An upper bound on the steps that a close has still to take. */
  function Remaining(w: World): nat {
    7 - Stage(w.closing) + 2 * |w.control.tasks| + |w.draining| + |LiveOf(w.draining)|
  }

  function Run(w: World, steps: seq<Step>): World
    requires CanRun(w, steps)
    decreases |steps|
  {
    if steps == [] then w else Run(Perform(w, steps[0]), steps[1..])
  }

  /** Every step of the schedule is possible when its turn comes. */
  predicate CanRun(w: World, steps: seq<Step>)
    decreases |steps|
  {
    steps != [] ==> CanStep(w, steps[0]) && CanRun(Perform(w, steps[0]), steps[1..])
  }

  /** Waiting for a task that is live: it was aborted, and ends. */
  lemma EndingComesCloser(w: World, t: nat)
    requires Inv(w) && w.closing == Draining && t in w.draining && w.draining[t].live
    ensures Remaining(Perform(w, TaskEnds(t))) < Remaining(w)
  {
    var draining := Perform(w, TaskEnds(t)).draining;
    assert draining.Keys == w.draining.Keys && |draining| == |draining.Keys| && |w.draining| == |w.draining.Keys|;
    assert LiveOf(draining) == LiveOf(w.draining) - {t} && t in LiveOf(w.draining);
  }

  lemma JoiningComesCloser(w: World, t: nat)
    requires Inv(w) && w.closing == Draining && t in w.draining && !w.draining[t].live
    ensures Remaining(Perform(w, JoinTask(t))) < Remaining(w)
  {
    var draining := Perform(w, JoinTask(t)).draining;
    assert draining.Keys == w.draining.Keys - {t} && |draining| == |draining.Keys| && |w.draining| == |w.draining.Keys|;
    assert LiveOf(draining) == LiveOf(w.draining);
  }

  lemma LiveAreTasks(tasks: map<nat, Task>)
    ensures |LiveOf(tasks)| <= |tasks|
  {
    SubsetIsSmaller(LiveOf(tasks), tasks.Keys);
  }

  lemma {:induction false} SubsetIsSmaller(a: set<nat>, b: set<nat>)
    requires a <= b
    ensures |a| <= |b|
    decreases a
  {
    if x :| x in a {
      SubsetIsSmaller(a - {x}, b - {x});
    }
  }

  lemma TakingComesCloser(w: World)
    requires Inv(w) && w.closing == TakingTasks
    ensures Remaining(Perform(w, TakeTasks)) < Remaining(w)
  {
    LiveAreTasks(w.control.tasks);
    assert |w.draining| == 0 && LiveOf(w.draining) == {};
    assert Perform(w, TakeTasks).draining == w.control.tasks && |Perform(w, TakeTasks).control.tasks| == 0;
  }

  /** The steps of the closing future that touch no task. */
  function OwnStep(c: Closing): Option<Step> {
    match c
    case NotClosing => Some(StartClosing)
    case SendingClose => Some(CloseMessageDone)
    case TransportTeardown => Some(TransportDown)
    case SignalingTeardown => Some(SignalingDown)
    case WritingStatus => Some(ClosingDone)
    case _ => None
  }

  lemma OwnStepComesCloser(w: World)
    requires Inv(w) && w.control.closed && OwnStep(w.closing).Some?
    ensures CanStep(w, OwnStep(w.closing).value)
    ensures var w' := Perform(w, OwnStep(w.closing).value);
            Remaining(w') < Remaining(w) && w'.control.closed
  {
    var w' := Perform(w, OwnStep(w.closing).value);
    assert w'.control == w.control && w'.draining == w.draining;
  }

  /** The closing future's own next step, or the end of a task it waits for. */
  lemma NextToClose(w: World) returns (s: Step)
    requires Inv(w) && w.control.closed && w.closing != Resolved
    ensures CanStep(w, s) && Remaining(Perform(w, s)) < Remaining(w)
    ensures Perform(w, s).control.closed
  {
    if OwnStep(w.closing).Some? {
      OwnStepComesCloser(w);
      s := OwnStep(w.closing).value;
    } else if w.closing == TakingTasks {
      TakingComesCloser(w);
      s := TakeTasks;
    } else if t :| t in w.draining {
      if w.draining[t].live {
        EndingComesCloser(w, t);
        s := TaskEnds(t);
      } else {
        JoiningComesCloser(w, t);
        s := JoinTask(t);
      }
    } else {
      assert w.draining == map[];
      s := AllJoined;
    }
  }

  lemma {:induction false} Closes(w: World) returns (steps: seq<Step>)
    requires Inv(w) && w.control.closed
    ensures CanRun(w, steps) && Run(w, steps).closing == Resolved && |steps| <= Remaining(w)
    decreases Remaining(w)
  {
    if w.closing == Resolved {
      steps := [];
    } else {
      var s := NextToClose(w);
      StepKeepsInv(w, s);
      var rest := Closes(Perform(w, s));
      steps := [s] + rest;
      assert steps[1..] == rest;
    }
  }

  /** Closing can always be finished: in every reachable state after a `close`, at
      most seven steps and two for each task that is left resolve it. */
  lemma CloseCanResolve(run: seq<World>, n: nat) returns (steps: seq<Step>)
    requires IsRun(run) && n < |run| && run[n].control.closed
    ensures CanRun(run[n], steps) && Run(run[n], steps).closing == Resolved
    ensures |steps| <= 7 + 2 * (|run[n].control.tasks| + |run[n].draining|)
  {
    RunInvariant(run, n);
    LiveAreTasks(run[n].draining);
    steps := Closes(run[n]);
  }

  // ----- no task is forgotten

  /** Every task that a spawn returned is either gone or still known, and running. */
  ghost predicate NoneForgotten(w: World) {
    && (forall t :: t in w.started ==> t < w.control.nextTask && (t in w.ended || IsLive(w, t)))
    && (forall t :: t in w.ended ==> t in w.started && !IsLive(w, t))
    && (forall t :: TaskOf(w, t).Some? ==> t in w.started)
  }

  lemma SpawnForgetsNone(w: World, s: Step)
    requires Inv(w) && NoneForgotten(w) && CanStep(w, s) && (s.StartOperation? || s.SpawnHandler?)
    ensures NoneForgotten(Perform(w, s))
  {
    assert TaskOf(w, w.control.nextTask).None?;
    assert w.control.nextTask !in w.control.tasks && w.control.nextTask !in w.draining;
    SpawnKeepsLiveTasks(w.control, s.SpawnHandler?);
    var w' := Perform(w, s);
    forall t | t != w.control.nextTask
      ensures IsLive(w', t) == IsLive(w, t) && (TaskOf(w', t).Some? ==> TaskOf(w, t).Some?)
    {
      assert t in w'.control.tasks ==> t in w.control.tasks;
    }
  }

  /** Changing one task, and what it says of being live. */
  lemma UpdateForgetsNone(w: World, t: nat, task: Task)
    requires NoneForgotten(w) && TaskOf(w, t).Some? && (IsLive(w, t) <==> task.live)
    ensures NoneForgotten(Update(w, t, task))
  {
    assert forall u :: u != t ==> TaskOf(Update(w, t, task), u) == TaskOf(w, u);
  }

  lemma DropForgetsNone(w: World, t: nat)
    requires NoneForgotten(w) && IsLive(w, t)
    ensures NoneForgotten(DropPermitOf(w, t)) && IsLive(DropPermitOf(w, t), t)
    ensures DropPermitOf(w, t).started == w.started && DropPermitOf(w, t).ended == w.ended
  {
    var released := w.(control := ReleasePermit(w.control));
    assert forall u :: TaskOf(released, u) == TaskOf(w, u);
    UpdateForgetsNone(released, t, TaskOf(w, t).value.(permit := false));
  }

  lemma EndForgetsNone(w: World, t: nat)
    requires Inv(w) && NoneForgotten(w) && IsLive(w, t)
    ensures NoneForgotten(Perform(w, TaskEnds(t)))
  {
    DropForgetsNone(w, t);
    var dropped := DropPermitOf(w, t);
    var w' := Perform(w, TaskEnds(t));
    assert forall u :: u != t ==> TaskOf(w', u) == TaskOf(dropped, u);
  }

  lemma CloserForgetsNone(w: World, s: Step)
    requires Inv(w) && NoneForgotten(w) && CanStep(w, s) && (s.CloseControl? || s.TakeTasks? || s.JoinTask?)
    ensures NoneForgotten(Perform(w, s))
  {
    var w' := Perform(w, s);
    if s.CloseControl? {
      assert forall t :: TaskOf(w', t).Some? == TaskOf(w, t).Some? && IsLive(w', t) == IsLive(w, t);
    } else if s.TakeTasks? {
      assert forall t :: TaskOf(w', t) == TaskOf(w, t);
    } else {
      assert forall t :: t != s.t ==> TaskOf(w', t) == TaskOf(w, t);
      assert s.t !in w.control.tasks;
    }
  }

  lemma StepForgetsNone(w: World, s: Step)
    requires Inv(w) && NoneForgotten(w) && CanStep(w, s)
    ensures NoneForgotten(Perform(w, s))
  {
    if s.StartOperation? || s.SpawnHandler? {
      SpawnForgetsNone(w, s);
    } else if s.TaskEnds? {
      EndForgetsNone(w, s.t);
    } else if s.ReplySent? {
      DropForgetsNone(w, s.t);
    } else if s.AbortTask? {
      UpdateForgetsNone(w, s.t, TaskOf(w, s.t).value.(aborted := true));
    } else if s.CloseControl? || s.TakeTasks? || s.JoinTask? {
      CloserForgetsNone(w, s);
    } else {
      assert forall t :: TaskOf(Perform(w, s), t) == TaskOf(w, t);
    }
  }

  predicate Grows(w: World, w': World) {
    w.started <= w'.started && w.ended <= w'.ended
  }

  lemma StepGrows(w: World, s: Step)
    requires CanStep(w, s)
    ensures Grows(w, Perform(w, s))
  {
  }

  lemma NextForgetsNone(w: World, w': World)
    requires Inv(w) && NoneForgotten(w) && Next(w, w')
    ensures Inv(w') && NoneForgotten(w') && Grows(w, w')
  {
    var s :| CanStep(w, s) && Perform(w, s) == w';
    StepKeepsInv(w, s);
    StepForgetsNone(w, s);
    StepGrows(w, s);
  }

  /** From the moment a spawn returned its handle, a task is live and known to the
      session until its future is gone; so at the moment `close` resolves, and ever
      after, every task that was ever started has ended. */
  lemma NoTaskIsForgotten(run: seq<World>, m: nat, n: nat)
    requires IsRun(run) && m <= n < |run|
    ensures forall t :: t in run[m].started ==> t in run[n].ended || IsLive(run[n], t)
    ensures forall t :: t in run[n].ended ==> !IsLive(run[n], t)
    ensures run[n].closing == Resolved ==> run[m].started <= run[n].started == run[n].ended
  {
    var inv := (w: World) => Inv(w) && NoneForgotten(w);
    forall w, w' | inv(w) && Next(w, w') ensures inv(w') && Grows(w, w') {
      NextForgetsNone(w, w');
    }
    Runs.RelationHolds(NEW_WORLD, Next, inv, Grows, run, m, n);
  }

  /** And every spawn that was not refused started one: the handle is logged. */
  lemma SpawnIsLogged(w: World)
    requires Inv(w)
    ensures Perform(w, StartOperation).started == w.started + (if w.control.closed then {} else {w.control.nextTask})
    ensures !w.control.closed ==> IsLive(Perform(w, StartOperation), w.control.nextTask)
  {
  }
}
