/** The record that decides every spawn, admission and shutdown of a session. */
module Admission {
  import opened Common

  const MAX_ACTIVE_HANDLERS := 256

  /** A session task. It is live until its future is destroyed, by completion, by
      a panic or after an abort; `permit` says that its future holds a handler permit. */
  datatype Task = Task(live: bool, aborted: bool, permit: bool)

  /** `activeHandlers` is an integer, so that not underflowing is a theorem. */
  datatype Control = Control(closed: bool, shutdown: bool, activeHandlers: int, tasks: map<nat, Task>, nextTask: nat)

  const NEW_CONTROL := Control(false, false, 0, map[], 0)

  function Finished(tasks: map<nat, Task>): set<nat> {
    set t | t in tasks && !tasks[t].live
  }

  function Spawn(c: Control, permit: bool): (Control, Result<nat>) {
    if c.closed then (c, Err(SessionClosed))
    else
      var kept := c.tasks - Finished(c.tasks);
      (c.(tasks := kept[c.nextTask := Task(true, false, permit)], nextTask := c.nextTask + 1), Ok(c.nextTask))
  }

  function AbortAll(tasks: map<nat, Task>): map<nat, Task> {
    map t | t in tasks :: tasks[t].(aborted := true)
  }

  function Close(c: Control): Control {
    if c.closed then c else c.(closed := true, shutdown := true, tasks := AbortAll(c.tasks))
  }

  function AdmitHandler(c: Control): (Control, Result<()>) {
    if c.closed then (c, Err(SessionClosed))
    else if c.activeHandlers >= MAX_ACTIVE_HANDLERS then (c, Err(RequestLimitReached))
    else (c.(activeHandlers := c.activeHandlers + 1), Ok(()))
  }

  function ReleasePermit(c: Control): Control {
    c.(activeHandlers := c.activeHandlers - 1)
  }

  /** A spawn is refused exactly after close, with nothing changed; otherwise the
      tasks are every live one as it was, none that has ended, and the new one. */
  lemma SpawnKeepsLiveTasks(c: Control, permit: bool)
    requires c.nextTask !in c.tasks
    ensures var (c', handle) := Spawn(c, permit);
            && (c.closed ==> c' == c && handle == Err(SessionClosed))
            && (!c.closed ==>
                  && handle == Ok(c.nextTask) && c' == c.(tasks := c'.tasks, nextTask := c.nextTask + 1)
                  && (forall t :: t in c'.tasks <==> t == c.nextTask || (t in c.tasks && c.tasks[t].live))
                  && (forall t :: t in c.tasks && c.tasks[t].live ==> c'.tasks[t] == c.tasks[t])
                  && c'.tasks[c.nextTask] == Task(true, false, permit))
  {
  }

  /** A handler is admitted exactly before close and below 256 active ones, and a
      refusal says which of the two it was. */
  lemma AdmitsExactly(c: Control)
    ensures var (c', permit) := AdmitHandler(c);
            && (permit.Ok? <==> !c.closed && c.activeHandlers < 256)
            && c' == (if permit.Ok? then c.(activeHandlers := c.activeHandlers + 1) else c)
            && (permit == Err(SessionClosed) <==> c.closed)
            && (permit == Err(RequestLimitReached) <==> !c.closed && c.activeHandlers >= 256)
  {
  }

  /** A close reaches every task, once: it changes nothing but the marks of an open record. */
  lemma CloseReachesEveryTask(c: Control)
    ensures var c' := Close(c);
            && c'.closed && c'.tasks.Keys == c.tasks.Keys && c'.activeHandlers == c.activeHandlers
            && (!c.closed ==> c'.shutdown && forall t :: t in c.tasks ==> c'.tasks[t] == Task(c.tasks[t].live, true, c.tasks[t].permit))
            && Close(c') == c'
  {
  }
}

/** The same record as the locked object whose fields each method updates. */
module SessionLock {
  import opened Common
  import opened Admission

  class SessionControl {
    var closed: bool
    var shutdown: bool
    var activeHandlers: int
    var tasks: map<nat, Task>
    var nextTask: nat

    constructor ()
      ensures View() == NEW_CONTROL
    {
      closed, shutdown, activeHandlers, tasks, nextTask := false, false, 0, map[], 0;
    }

    function View(): Control
      reads this
    {
      Control(closed, shutdown, activeHandlers, tasks, nextTask)
    }

    /** Every finished task is joined, one at a time, before the new one is added. */
    method Spawn(permit: bool) returns (handle: Result<nat>)
      modifies this
      ensures (View(), handle) == Admission.Spawn(old(View()), permit)
    {
      if closed {
        return Err(SessionClosed);
      }
      var finished := Finished(tasks);
      while finished != {}
        invariant View() == old(View()).(tasks := tasks)
        invariant finished == Finished(tasks)
        invariant tasks - finished == old(tasks) - Finished(old(tasks))
        decreases finished
      {
        var t :| t in finished;
        tasks := tasks - {t};
        finished := finished - {t};
      }
      assert tasks - finished == tasks;
      tasks := tasks[nextTask := Task(true, false, permit)];
      handle := Ok(nextTask);
      nextTask := nextTask + 1;
    }

    method Close()
      modifies this
      ensures View() == Admission.Close(old(View()))
    {
      if closed {
        return;
      }
      closed := true;
      tasks := AbortAll(tasks);
      shutdown := true;
    }

    /** Takes the task set and joins its tasks, in whatever order they end. */
    method WaitForTasks() returns (joined: set<nat>)
      modifies this`tasks
      ensures View() == old(View()).(tasks := map[]) && joined == old(tasks).Keys
    {
      var waiting := tasks;
      tasks := map[];
      joined := {};
      while waiting != map[]
        invariant joined + waiting.Keys == old(tasks).Keys
        invariant joined !! waiting.Keys
        decreases waiting.Keys
      {
        var t :| t in waiting.Keys;
        waiting := waiting - {t};
        joined := joined + {t};
      }
    }

    method AdmitHandler() returns (permit: Result<()>)
      modifies this`activeHandlers
      ensures (View(), permit) == Admission.AdmitHandler(old(View()))
    {
      if closed {
        return Err(SessionClosed);
      }
      if activeHandlers >= MAX_ACTIVE_HANDLERS {
        return Err(RequestLimitReached);
      }
      activeHandlers := activeHandlers + 1;
      return Ok(());
    }

    method DropPermit()
      modifies this`activeHandlers
      ensures View() == ReleasePermit(old(View()))
    {
      activeHandlers := activeHandlers - 1;
    }
  }
}
