/** The reconciler's code takes exactly the steps the runs are made of. */
module Refinement {
  import opened Api
  import opened Rollout
  import opened Runs
  import opened Ledger
  import Controller

  /** The state in which a pass that started in `s` has made `n` writes, ending in `w`. */
  function After(s: Sys, p: Pass, n: nat, w: World): Sys
    requires n <= |Plan(p)|
  {
    if n < |Plan(p)| then s.(w := w, run := Some(Running(p, n))) else s.(w := w, run := None, hist := s.hist + [p])
  }

  /** Pass `p` is the one that may start in `s`, both of its reads taking place there. */
  ghost predicate CanRun(engine: bool, k: Key, s: Sys, p: Pass) {
    && s.seen.None? && s.run.None? && p.key == k
    && k in s.w.canaries && MayBegin(engine, Own(k, s), s.w, p)
  }

  lemma {:induction false} WritesAreSteps(engine: bool, k: Key, s: Sys, p: Pass, n: nat, w: World) returns (tr: seq<Sys>)
    requires CanRun(engine, k, s, p) && Controller.Reached(p, s.w, n, w)
    ensures |tr| == n + 3 && tr[0] == s && tr[n + 2] == After(s, p, n, w)
    ensures forall i: nat | i < n + 2 :: Next(engine, k, tr[i], tr[i + 1])
  {
    hide Apply, Decide, Body, Skipped, Analyses;
    if n == 0 {
      var reading := s.(seen := Some(Own(k, s)));
      assert Reads(k, s, reading) && Starts(engine, k, reading, After(s, p, 0, w));
      tr := [s, reading, After(s, p, 0, w)];
    } else {
      var before := Exec(p, n - 1, s.w).value;
      tr := WritesAreSteps(engine, k, s, p, n - 1, before);
      var next := After(s, p, n, w);
      assert Writes(tr[n + 1], next);
      tr := tr + [next];
    }
  }

  /** Whatever `Controller.Reconcile` leaves behind, it got there by steps of a run: the pass
      reads, starts, makes its `n` writes one by one, and unless they were all of them it gives up. */
  lemma ReconcileIsARun(engine: bool, k: Key, s: Sys, p: Pass, n: nat, w: World) returns (tr: seq<Sys>)
    requires CanRun(engine, k, s, p) && Controller.Reached(p, s.w, n, w)
    ensures |tr| > 1 && tr[0] == s
    ensures forall i: nat | i + 1 < |tr| :: Next(engine, k, tr[i], tr[i + 1])
    ensures tr[|tr| - 1] == s.(w := w, hist := s.hist + if n == |Plan(p)| then [p] else [])
  {
    tr := WritesAreSteps(engine, k, s, p, n, w);
    var last := tr[n + 2];
    if n < |Plan(p)| {
      assert Fails(last, last.(run := None));
      tr := tr + [last.(run := None)];
    }
  }

  /** The ledger, read in any state of any run. */
  lemma LedgerOfRun(engine: bool, k: Key, tr: seq<Sys>, i: nat)
    requires IsRun(engine, k, tr) && i < |tr|
    ensures k in tr[i].w.canaries && Chain(engine, k, tr[i].hist)
    ensures
      var st, hist := Own(k, tr[i]).status, tr[i].hist;
      && st == StatusAfter(hist)
      && FailedInARow(Outcomes(hist), st.failedChecks)
      && st.index == CountMoves(CurrentRollout(hist))
      && (st.stable == "" <==> hist == [])
      && (st.canary == "" || st.canary != st.stable)
      && (st.stable != "" ==> Seen(hist, st.stable)) && (st.canary != "" ==> Seen(hist, st.canary))
  {
    CoreAt(engine, k, tr, i);
    CounterIsFailedRun(engine, k, tr[i].hist);
    IndexCountsMoves(engine, k, tr[i].hist);
    RevisionsAreAccountedFor(engine, k, tr[i].hist);
  }
}
