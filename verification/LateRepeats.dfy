/**
 The repeating tasks of split handlers: exactly when an end that has its peer's key
 can still start one, be it encrypted or failed.
 */
module LateRepeats {
  import opened Common
  import opened Wire
  import opened Signaling
  import opened FineGrain
  import opened LateWrites
  import Runs

  /** What the task has still to run leads to a new repeating task, at an end that
      has a peer key: `StoreKey` ends it there, and so does an `Encrypt` that has no
      secret to seal with. */
  predicate Leads(me: Properties, task: Task)
    decreases task
  {
    task.Do? &&
    match task.next
    case StartRepeating(_) => true
    case WriteState(_) => Leads(me, task.rest)
    case StoreCaps(_) => Leads(me, task.rest)
    case StartDeadline => Leads(me, task.rest)
    case Publish(_, _) => Leads(me, task.rest)
    case Encrypt(o, fatal) => (Sealable(me, o) || !fatal) && Leads(me, task.rest)
    case _ => false
  }

  predicate Sealable(me: Properties, o: Outgoing) {
    o.prefix == EncryptedPrefix || me.secret.Some?
  }

  predicate AnyLeads(me: Properties, p: Party) {
    Leads(me, p.setup) || exists t :: 0 <= t < |p.tasks| && Leads(me, p.tasks[t])
  }

  predicate Starts(task: Task) {
    task.Do? && task.next.StartRepeating?
  }

  /** The next action of `setup` or of some task starts a repeating task. */
  predicate AboutToRepeat(p: Party) {
    Starts(p.setup) || exists t :: 0 <= t < |p.tasks| && Starts(p.tasks[t])
  }

  ghost predicate CanRepeat(ids: seq<Properties>, w: World, i: nat) {
    exists more :: RepeatsBy(ids, w, i, more)
  }

  ghost predicate RepeatsBy(ids: seq<Properties>, w: World, i: nat, more: seq<World>) {
    Runs.IsRun(w, FineGrain.NextOf(ids), more)
    && i < |more[|more| - 1].parties| && AboutToRepeat(more[|more| - 1].parties[i])
  }

  // ----- nothing new leads there

  predicate Calm(me: Properties, p: Party) {
    Ordered(me, p) && p.relyingKey.Some? && !AnyLeads(me, p)
  }

  lemma BranchLeadsNowhere(me: Properties, s: SignalState, f: Frame, m: Message)
    requires !Early(s)
    ensures !Leads(me, Branch(me, s, f, m))
  {
    var echo := Do(Encrypt(CapabilitiesOut(me), true), Done);
    assert !Leads(me, Done) && !Leads(me, echo);
    assert !Leads(me, Do(WriteState(Encrypted), Done)) && !Leads(me, Do(WriteState(Encrypted), echo));
  }

  /** One action of an end with a peer key makes no task lead to repeating. */
  lemma ActionLeadsNowhere(me: Properties, p: Party, a: Action, rest: Task, ok: bool)
    requires p.relyingKey.Some? && !Early(p.state) && !Leads(me, Do(a, rest))
    requires !a.Subscribe? && !a.CheckCanEncrypt?
    ensures var o := Execute(me, p, a, rest, ok);
            && !Leads(me, o.rest) && (o.started.Some? ==> !Leads(me, o.started.value))
            && o.party.relyingKey.Some? && o.party.tasks == p.tasks && o.party.setup == p.setup
  {
    if a.ReadState? {
      BranchLeadsNowhere(me, p.state, a.frame, a.message);
    } else if a.Repeat? {
      assert !Leads(me, Do(Repeat(a.out), Done));
    }
  }

  lemma RanLeadsNowhere(me: Properties, p: Party, t: nat, ok: bool)
    requires Calm(me, p) && t < |p.tasks| && p.tasks[t].Do?
    ensures !AnyLeads(me, Ran(p, t, Execute(me, p, p.tasks[t].next, p.tasks[t].rest, ok)))
  {
    assert Shaped(me, p.tasks[t]);
    ActionLeadsNowhere(me, p, p.tasks[t].next, p.tasks[t].rest, ok);
  }

  lemma SetupLeadsNowhere(me: Properties, p: Party, ok: bool)
    requires Calm(me, p) && p.setup.Do?
    ensures var o := Execute(me, p, p.setup.next, p.setup.rest, ok);
            !AnyLeads(me, StartedBy(o).(setup := o.rest))
  {
    ActionLeadsNowhere(me, p, p.setup.next, p.setup.rest, ok);
  }

  lemma AddedLeadsNowhere(me: Properties, p: Party, task: Task)
    requires !AnyLeads(me, p) && !Leads(me, task)
    ensures !AnyLeads(me, AddTask(p, task))
  {
  }

  lemma StepStaysCalm(ids: seq<Properties>, w: World, step: Step, i: nat)
    requires AllOrdered(ids, w) && FineGrain.Enabled(ids, w, step) && i < |ids| && Calm(ids[i], w.parties[i])
    ensures Calm(ids[i], FineGrain.Apply(ids, w, step).parties[i])
  {
    var p := w.parties[i];
    StepKeepsOrder(ids, w, step);
    StepWritesOnce(ids, w, step, i);
    if step.RunTask? && step.i == i {
      RanLeadsNowhere(ids[i], p, step.t, step.ok);
    } else if step.RunSetup? && step.i == i {
      SetupLeadsNowhere(ids[i], p, step.ok);
    } else if step.Deliver? && step.i == i {
      AddedLeadsNowhere(ids[i], p, Do(Decrypt(step.frame), Done));
    } else if step.SendCall? && step.i == i {
      assert !Leads(ids[i], Done);
      AddedLeadsNowhere(ids[i], p, Do(Encrypt(DataOut(ids[i], step.payload), true), Done));
    } else if step.CancelTask? && step.i == i {
      assert forall u :: 0 <= u < |p.tasks| && u != step.t ==> p.tasks[step.t := Done][u] == p.tasks[u];
    }
  }

  lemma CalmForever(ids: seq<Properties>, w: World, i: nat, more: seq<World>, n: nat)
    requires AllOrdered(ids, w) && i < |ids| && Calm(ids[i], w.parties[i])
    requires Runs.IsRun(w, FineGrain.NextOf(ids), more) && n < |more|
    ensures |more[n].parties| == |ids| && Calm(ids[i], more[n].parties[i])
  {
    var inv := (v: World) => AllOrdered(ids, v) && Calm(ids[i], v.parties[i]);
    forall v, v' | inv(v) && FineGrain.NextOf(ids)(v, v') ensures inv(v') {
      var step :| FineGrain.Enabled(ids, v, step) && FineGrain.Apply(ids, v, step) == v';
      StepStaysCalm(ids, v, step, i);
      StepKeepsOrder(ids, v, step);
    }
    Runs.InvariantHolds(w, FineGrain.NextOf(ids), inv, more, n);
  }

  // ----- and what leads there gets there

  lemma {:induction false} LeadingTaskStarts(ids: seq<Properties>, w: World, more: seq<World>, i: nat, t: nat, task: Task)
    requires Runs.IsRun(w, FineGrain.NextOf(ids), more) && |more[|more| - 1].parties| == |ids| && i < |ids|
    requires var p := more[|more| - 1].parties[i]; p.relyingKey.Some? && t < |p.tasks| && p.tasks[t] == task
    requires Leads(ids[i], task)
    ensures CanRepeat(ids, w, i)
    decreases task
  {
    if task.next.StartRepeating? {
      assert Starts(more[|more| - 1].parties[i].tasks[t]);
      assert RepeatsBy(ids, w, i, more);
    } else {
      var longer := Continue(ids, w, more, i, t, true);
      if longer[|longer| - 1].parties[i].tasks[t] != task.rest {
        longer := Continue(ids, w, longer, i, t, true);
      }
      LeadingTaskStarts(ids, w, longer, i, t, task.rest);
    }
  }

  /** One more action of `setup` of end `i`. */
  lemma ContinueSetup(ids: seq<Properties>, w: World, more: seq<World>, i: nat) returns (longer: seq<World>)
    requires Runs.IsRun(w, FineGrain.NextOf(ids), more) && |more[|more| - 1].parties| == |ids| && i < |ids|
    requires more[|more| - 1].parties[i].setup.Do?
    ensures Runs.IsRun(w, FineGrain.NextOf(ids), longer)
    ensures var (last, p) := (more[|more| - 1], more[|more| - 1].parties[i]);
            var o := Execute(ids[i], p, p.setup.next, p.setup.rest, true);
            longer == more + [World(last.parties[i := StartedBy(o).(setup := o.rest)], last.net + SentBy(o))]
  {
    longer := ContinueBy(ids, w, more, RunSetup(i, true));
  }

  lemma {:induction false} LeadingSetupStarts(ids: seq<Properties>, w: World, more: seq<World>, i: nat, task: Task)
    requires Runs.IsRun(w, FineGrain.NextOf(ids), more) && |more[|more| - 1].parties| == |ids| && i < |ids|
    requires var p := more[|more| - 1].parties[i]; p.relyingKey.Some? && p.setup == task
    requires Leads(ids[i], task)
    ensures CanRepeat(ids, w, i)
    decreases task
  {
    if task.next.StartRepeating? {
      assert RepeatsBy(ids, w, i, more);
    } else {
      var longer := ContinueSetup(ids, w, more, i);
      if longer[|longer| - 1].parties[i].setup != task.rest {
        longer := ContinueSetup(ids, w, longer, i);
      }
      LeadingSetupStarts(ids, w, longer, i, task.rest);
    }
  }

  /** Exactly when an end that has its peer's key can still start a repeating task,
      in every reachable world: when `setup` or some task leads to it. Encrypted ends
      are among these, whose repeating was stopped on writing `Encrypted`. */
  lemma RepeatsLateExactly(ids: seq<Properties>, run: seq<World>, n: nat, i: nat)
    requires FineGrain.IsRun(ids, run) && n < |run| && i < |ids|
    ensures |run[n].parties| == |ids|
    ensures run[n].parties[i].state == Encrypted ==> run[n].parties[i].relyingKey.Some?
    ensures run[n].parties[i].relyingKey.Some? ==>
              (CanRepeat(ids, run[n], i) <==> AnyLeads(ids[i], run[n].parties[i]))
  {
    RunIsOrdered(ids, run, n);
    var w, p := run[n], run[n].parties[i];
    if p.relyingKey.Some? {
      if Leads(ids[i], p.setup) {
        LeadingSetupStarts(ids, w, [w], i, p.setup);
      } else if t :| 0 <= t < |p.tasks| && Leads(ids[i], p.tasks[t]) {
        LeadingTaskStarts(ids, w, [w], i, t, p.tasks[t]);
      } else {
        forall more | Runs.IsRun(w, FineGrain.NextOf(ids), more) ensures !RepeatsBy(ids, w, i, more) {
          CalmForever(ids, w, i, more, |more| - 1);
        }
      }
    }
  }
}
