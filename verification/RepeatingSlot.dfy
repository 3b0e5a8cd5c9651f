/**
 The one slot for an end's repeating task, under sends that overlap: exactly when a
 task is out of reach of every later stop.
 */
module RepeatingSlot {
  import opened Common

  /** `slot` is the repeating task that a stop would reach; `live` are those that run. */
  datatype Slot = Slot(slot: Option<nat>, live: set<nat>, next: nat)

  /** `stop_repeating` takes the slot and aborts its task; installing a task
      overwrites the slot without aborting what it held. */
  datatype Step = Stop | Install

  const EMPTY_SLOT := Slot(None, {}, 0)

  function Perform(s: Slot, step: Step): Slot {
    match step
    case Stop => if s.slot.Some? then s.(slot := None, live := s.live - {s.slot.value}) else s
    case Install => Slot(Some(s.next), s.live + {s.next}, s.next + 1)
  }

  function Play(steps: seq<Step>): Slot {
    if steps == [] then EMPTY_SLOT else Perform(Play(steps[..|steps| - 1]), steps[|steps| - 1])
  }

  /** The running tasks that no later stop reaches. */
  function Detached(s: Slot): set<nat> {
    if s.slot.Some? then s.live - {s.slot.value} else s.live
  }

  /** Two installs, one after the other with no stop between. */
  predicate Overlap(steps: seq<Step>, i: int) {
    0 <= i < |steps| - 1 && steps[i] == Install && steps[i + 1] == Install
  }

  lemma {:induction false} SlotInvariant(steps: seq<Step>)
    ensures var s := Play(steps);
            && (s.slot.Some? <==> steps != [] && steps[|steps| - 1] == Install)
            && (s.slot.Some? ==> s.slot.value in s.live)
            && (forall t :: t in s.live ==> t < s.next)
    decreases |steps|
  {
    if steps != [] {
      SlotInvariant(steps[..|steps| - 1]);
    }
  }

  /** A repeating task runs on out of reach if and only if one was installed where
      another had been since the last stop, that is, when two sends overlapped
      between their stop and their install. */
  lemma {:induction false} DetachedExactly(steps: seq<Step>)
    ensures Detached(Play(steps)) != {} <==> exists i :: Overlap(steps, i)
    decreases |steps|
  {
    if steps != [] {
      var k := |steps| - 1;
      var shorter := steps[..k];
      DetachedExactly(shorter);
      SlotInvariant(shorter);
      forall i | 0 <= i < k - 1 ensures Overlap(steps, i) <==> Overlap(shorter, i) {
      }
      var s := Play(shorter);
      if steps[k] == Install && s.slot.Some? {
        assert s.slot.value in Detached(Play(steps)) && Overlap(steps, k - 1);
      } else {
        assert Detached(Play(steps)) == Detached(s);
      }
      if i :| Overlap(shorter, i) {
        assert Overlap(steps, i);
      }
    }
  }

  /** What is out of reach stays so, whatever is stopped later. */
  lemma DetachedStays(steps: seq<Step>, step: Step)
    ensures Detached(Play(steps)) <= Detached(Play(steps + [step]))
  {
    assert (steps + [step])[..|steps|] == steps;
    SlotInvariant(steps);
  }
}
