/**
 The peer's close against transport failures handled by other tasks: reading the
 flag and writing the error, storing the flag and clearing the error are steps of
 their own, in any order.
 */
module PeerClose {
  import opened Common
  import Steps = SessionSteps

  /** `pending` are the failure handlers that read the flag as not set and have
      still to write; `clearing` says that a close has stored the flag and has still
      to clear the error. */
  datatype Race = Race(peerClosed: bool, clearing: bool, failed: bool, pending: set<nat>)

  datatype Step = ReadFlag(id: nat) | WriteError(id: nat) | StoreFlag | ClearError

  predicate CanStep(r: Race, s: Step) {
    match s
    case ReadFlag(id) => id !in r.pending
    case WriteError(id) => id in r.pending
    case StoreFlag => !r.clearing
    case ClearError => r.clearing
  }

  function Perform(r: Race, s: Step): Race {
    match s
    case ReadFlag(id) => if r.peerClosed then r else r.(pending := r.pending + {id})
    case WriteError(id) => r.(failed := true, pending := r.pending - {id})
    case StoreFlag => r.(peerClosed := true, clearing := true)
    case ClearError => r.(failed := false, clearing := false)
  }

  const NEW_RACE := Race(false, false, false, {})

  function Play(steps: seq<Step>): Race {
    if steps == [] then NEW_RACE else Perform(Play(steps[..|steps| - 1]), steps[|steps| - 1])
  }

  /** Every step is possible when its turn comes. */
  predicate CanPlay(steps: seq<Step>) {
    steps != [] ==> CanPlay(steps[..|steps| - 1]) && CanStep(Play(steps[..|steps| - 1]), steps[|steps| - 1])
  }

  /** A handler that read the flag before it was first stored, and wrote the error
      after it was last cleared. */
  predicate Straddles(steps: seq<Step>, i: int, j: int) {
    && 0 <= i < j < |steps| && steps[i].ReadFlag? && steps[j] == WriteError(steps[i].id)
    && (forall k :: 0 <= k < i ==> steps[k] != StoreFlag)
    && (forall k :: j < k < |steps| ==> steps[k] != ClearError)
  }

  /** A pending handler read the flag before it was first stored. */
  lemma {:induction false} PendingReadBefore(steps: seq<Step>, id: nat) returns (i: nat)
    requires CanPlay(steps) && id in Play(steps).pending
    ensures i < |steps| && steps[i] == ReadFlag(id) && forall k :: 0 <= k < i ==> steps[k] != StoreFlag
    decreases |steps|
  {
    var shorter := steps[..|steps| - 1];
    if id in Play(shorter).pending {
      i := PendingReadBefore(shorter, id);
    } else {
      i := |steps| - 1;
      FlagWasStored(shorter);
    }
  }

  lemma {:induction false} FlagWasStored(steps: seq<Step>)
    ensures Play(steps).peerClosed <==> StoreFlag in steps
    decreases |steps|
  {
    if steps != [] {
      var shorter, last := steps[..|steps| - 1], steps[|steps| - 1];
      FlagWasStored(shorter);
      assert steps == shorter + [last];
    }
  }

  /** An error is left exactly when one was written after the last clear. */
  lemma {:induction false} ErrorWasWritten(steps: seq<Step>)
    requires CanPlay(steps)
    ensures Play(steps).failed <==> exists j :: IsLastWord(steps, j)
    decreases |steps|
  {
    if steps != [] {
      var shorter, last := steps[..|steps| - 1], steps[|steps| - 1];
      ErrorWasWritten(shorter);
      if Play(steps).failed {
        if last.WriteError? {
          assert IsLastWord(steps, |steps| - 1);
        } else {
          var j :| IsLastWord(shorter, j);
          assert IsLastWord(steps, j);
        }
      }
      forall j | IsLastWord(steps, j) ensures Play(steps).failed {
        if j < |shorter| {
          assert IsLastWord(shorter, j);
        }
      }
    }
  }

  predicate IsLastWord(steps: seq<Step>, j: int) {
    0 <= j < |steps| && steps[j].WriteError? && forall k :: j < k < |steps| ==> steps[k] != ClearError
  }

  lemma {:induction false} PrefixPlays(steps: seq<Step>, j: nat)
    requires CanPlay(steps) && j < |steps|
    ensures CanPlay(steps[..j]) && CanStep(Play(steps[..j]), steps[j])
    decreases |steps|
  {
    if j < |steps| - 1 {
      PrefixPlays(steps[..|steps| - 1], j);
      assert steps[..|steps| - 1][..j] == steps[..j];
    }
  }

  /** In every order of steps, an error is left if and only if a failure handler
      read the flag before the close first stored it and wrote after the close last
      cleared the error. */
  lemma ErrorLeftExactly(steps: seq<Step>)
    requires CanPlay(steps)
    ensures Play(steps).failed <==> exists i, j :: Straddles(steps, i, j)
  {
    ErrorWasWritten(steps);
    if Play(steps).failed {
      var j :| IsLastWord(steps, j);
      PrefixPlays(steps, j);
      var i := PendingReadBefore(steps[..j], steps[j].id);
      assert steps[..j][i] == steps[i];
      assert forall k :: 0 <= k < i ==> steps[k] == steps[..j][k];
      assert Straddles(steps, i, j);
    }
    forall i, j | Straddles(steps, i, j) ensures Play(steps).failed {
      assert IsLastWord(steps, j);
    }
  }

  lemma PlayMore(steps: seq<Step>, s: Step)
    requires CanPlay(steps) && CanStep(Play(steps), s)
    ensures CanPlay(steps + [s]) && Play(steps + [s]) == Perform(Play(steps), s)
  {
    assert (steps + [s])[..|steps|] == steps;
  }

  /** The error of a transport failure can stay reported after the peer's close. */
  lemma ErrorCanStay()
    ensures var steps := [ReadFlag(0), StoreFlag, ClearError, WriteError(0)];
            CanPlay(steps) && Play(steps) == Race(true, false, true, {})
  {
    PlayMore([], ReadFlag(0));
    PlayMore([] + [ReadFlag(0)], StoreFlag);
    PlayMore([] + [ReadFlag(0)] + [StoreFlag], ClearError);
    PlayMore([] + [ReadFlag(0)] + [StoreFlag] + [ClearError], WriteError(0));
    assert [] + [ReadFlag(0)] + [StoreFlag] + [ClearError] + [WriteError(0)] == [ReadFlag(0), StoreFlag, ClearError, WriteError(0)];
  }

  /** A session's own failure handling is one of the two orders: with the close in
      between, or with nothing in between. */
  lemma SessionMatchesRace(s: Steps.Session, closing: bool)
    requires s.error.None?
    ensures var r := Race(s.peerClosed, false, false, {});
            var checked := Perform(r, ReadFlag(0));
            var between := if closing then Perform(Perform(checked, StoreFlag), ClearError) else checked;
            var after := if CanStep(between, WriteError(0)) then Perform(between, WriteError(0)) else between;
            var s' := Steps.SetTransportError(s, closing);
            s'.error.Some? == after.failed && s'.peerClosed == after.peerClosed
  {
  }
}
