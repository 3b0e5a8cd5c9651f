/** Runs of a transition system, and the two inductions over them. */
module Runs {

  ghost predicate IsRun<W(!new)>(first: W, next: (W, W) -> bool, run: seq<W>) {
    && |run| > 0 && run[0] == first
    && forall i, j :: 0 <= i < j < |run| && j == i + 1 ==> next(run[i], run[j])
  }

  /** What holds at first and is kept by every step holds throughout every run. */
  lemma {:induction false} InvariantHolds<W(!new)>(first: W, next: (W, W) -> bool, inv: W -> bool, run: seq<W>, n: nat)
    requires IsRun(first, next, run) && n < |run|
    requires inv(first)
    requires forall w, w' :: inv(w) && next(w, w') ==> inv(w')
    ensures inv(run[n])
  {
    if n > 0 {
      InvariantHolds(first, next, inv, run, n - 1);
      assert next(run[n - 1], run[n]);
    }
  }

  /** A reflexive and transitive relation that holds across every step holds
      between any two moments of every run. */
  lemma {:induction false} RelationHolds<W(!new)>(
      first: W, next: (W, W) -> bool, inv: W -> bool, rel: (W, W) -> bool, run: seq<W>, m: nat, n: nat)
    requires IsRun(first, next, run) && m <= n < |run|
    requires inv(first)
    requires forall w, w' :: inv(w) && next(w, w') ==> inv(w') && rel(w, w')
    requires forall w :: inv(w) ==> rel(w, w)
    requires forall u, v, w :: rel(u, v) && rel(v, w) ==> rel(u, w)
    ensures rel(run[m], run[n]) && inv(run[n])
  {
    InvariantHolds(first, next, inv, run, n);
    if m < n {
      RelationHolds(first, next, inv, rel, run, m, n - 1);
      assert next(run[n - 1], run[n]);
    }
  }

  /** What holds at one moment and not at a later one is lost at some step between. */
  lemma {:induction false} LastBefore<W(!new)>(run: seq<W>, p: W -> bool, m: nat, n: nat) returns (k: nat)
    requires m < n < |run| && p(run[m]) && !p(run[n])
    ensures m <= k < n && p(run[k]) && !p(run[k + 1])
    decreases n
  {
    k := n - 1;
    if !p(run[k]) {
      k := LastBefore(run, p, m, n - 1);
    }
  }

  /** One more step at the end of a run. */
  lemma Extend<W(!new)>(first: W, next: (W, W) -> bool, run: seq<W>, w: W)
    requires IsRun(first, next, run) && next(run[|run| - 1], w)
    ensures IsRun(first, next, run + [w])
  {
    var longer := run + [w];
    forall i, j | 0 <= i < j < |longer| && j == i + 1 ensures next(longer[i], longer[j]) {
      if j < |run| {
        assert next(run[i], run[j]);
      }
    }
  }

  /** A run and a continuation of its moment `n` are one run. */
  lemma Join<W(!new)>(first: W, next: (W, W) -> bool, run: seq<W>, n: nat, more: seq<W>)
    requires IsRun(first, next, run) && n < |run| && IsRun(run[n], next, more)
    ensures IsRun(first, next, run[..n] + more)
  {
    var joined := run[..n] + more;
    forall i, j | 0 <= i < j < |joined| && j == i + 1 ensures next(joined[i], joined[j]) {
      if j <= n {
        assert joined[i] == run[i] && joined[j] == run[j] && next(run[i], run[j]);
      } else {
        assert joined[i] == more[i - n] && joined[j] == more[j - n] && next(more[i - n], more[j - n]);
      }
    }
  }
}
