/** A progressive rollout comes to an end, and how soon. */
module Progress {
  import opened Api
  import opened Rollout
  import opened Passes
  import opened Frames
  import opened Convergence
  import Analysis
  import NginxRouter
  import RouteRouter
  import Workload

  /** Everything the pass writes to is there, so none of its writes raises an error. */
  ghost predicate Writable(p: Pass, w: World) {
    && p.key in w.canaries
    && !Workload.SelectorIsNilMap(p.t)
    && (forall i | 0 <= i < |Steps(p.c)| :: 0 <= Steps(p.c)[i] <= 100)
    && match p.c.spec.traffic.provider
       case Nginx => p.c.spec.traffic.ingressRef.Some? && NginxRouter.StableKey(p.key, p.c) in w.ingresses
       case OpenShiftRoute => p.c.spec.traffic.routeRef.Some? && RouteRouter.RouteKey(p.key, p.c) in w.routes
       case OtherProvider(_) => false
  }

  lemma WriteSucceeds(p: Pass, n: nat, w: World)
    requires Writable(p, w) && n < |Plan(p)|
    ensures Apply(Plan(p)[n], p, w).Ok?
  {
    DecisionIsOneKind(p);
    PlanShape(p, n);
  }

  lemma WriteLeavesWritable(e: Effect, p: Pass, w: World, w': World)
    requires Writable(p, w) && Apply(e, p, w) == Ok(w')
    ensures Writable(p, w')
  {
    hide Decide, NextStatus;
    WritesToCanaries(e, p, w, w');
    WriteIsFramed(e, p, w, w');
    if p.c.spec.traffic.provider.Nginx? {
      assert |NginxRouter.SiblingKey(p.key, p.c).name| == |NginxRouter.StableKey(p.key, p.c).name| + 7;
    }
  }

  lemma {:induction false} PassCompletes(p: Pass, n: nat, w: World)
    requires Writable(p, w) && n < |Plan(p)| && !PromoteRequested(p.c) && !AbortRequested(p.c)
    ensures Writable(p, RunFrom(p, n, w))
    ensures RunFrom(p, n, w).canaries[p.key] == w.canaries[p.key].(status := NextStatus(p))
    ensures SameAt(w.deployments, RunFrom(p, n, w).deployments, TargetKey(p.key, p.c))
    decreases |Plan(p)| - n
  {
    hide Decide, NextStatus;
    WriteSucceeds(p, n, w);
    PlanShape(p, n);
    var w' := Apply(Plan(p)[n], p, w).value;
    WriteLeavesWritable(Plan(p)[n], p, w, w');
    WhatAWriteChanges(p, n, w, w');
    WritesToCanaries(Plan(p)[n], p, w, w');
    if n + 1 < |Plan(p)| {
      PassCompletes(p, n + 1, w');
    } else {
      assert RunFrom(p, n + 1, w') == w';
    }
  }

  // ---- The measure ----

  /** A rollout in progress: analysis on, no commands, and a new revision to bring in. */
  ghost predicate Rolling(c: Canary, t: Deployment) {
    && c.spec.strategy.mode.Progressive? && c.spec.analysis.enabled
    && !Skipped(c) && !PromoteRequested(c) && !AbortRequested(c)
    && c.status.stable != "" && c.status.stable != Revision(t)
    && 0 <= c.status.index < |Steps(c)| && c.status.failedChecks >= 0
  }

  ghost predicate Ended(st: Status) {
    st.phase.Succeeded? || st.phase.RolledBack?
  }

  /** How many more passes the rollout can take: steps left, then entering the analysis, then
      failures left, one of which is the pass that rolls back. */
  function PassesLeft(c: Canary): int {
    var max, st := Analysis.MaxFailedChecks(c), c.status;
    (|Steps(c)| - 1 - st.index) * (max + 2)
    + (if st.phase.Analyzing? then 0 else 1)
    + (if st.failedChecks > max then 1 else max + 2 - st.failedChecks)
  }

  lemma ProductStep(left: int, m: int)
    requires left >= 0 && m >= 0
    ensures (left + 1) * m == left * m + m && left * m >= 0
  {
  }

  lemma PassesLeftIsBounded(c: Canary, t: Deployment)
    requires Rolling(c, t)
    ensures 0 < PassesLeft(c) <= (|Steps(c)| - c.status.index) * (Analysis.MaxFailedChecks(c) + 2) + 1
  {
    hide Skipped, PromoteRequested, AbortRequested, Revision, Analysis.MaxFailedChecks;
    var m, left := Analysis.MaxFailedChecks(c) + 2, |Steps(c)| - 1 - c.status.index;
    ProductStep(left, m);
    assert |Steps(c)| - c.status.index == left + 1;
    assert PassesLeft(c) <= left * m + 1 + m;
  }

  /** What a pass of a rollout does to step, phase and count: it enters the analysis, fails it, or
      passes it and advances, unless it ends the rollout. */
  lemma RollingPassMoves(p: Pass)
    requires Rolling(p.c, p.t)
    requires p.analysis.Some? <==> Analyses(true, p.c)
    requires p.analysis.Some? ==> Analysis.ResultFor(p.c, p.analysis.value)
    ensures var st, st' := p.c.status, NextStatus(p);
      || Ended(st')
      || (&& st'.stable == st.stable && 0 <= st'.index < |Steps(p.c)|
          && if st'.index == st.index then
               && st'.phase.Analyzing?
               && (if st.phase.Analyzing? then st.failedChecks <= Analysis.MaxFailedChecks(p.c) && st'.failedChecks == st.failedChecks + 1
                   else st'.failedChecks == st.failedChecks)
             else st'.index == st.index + 1 && st'.phase.Progressing? && st'.failedChecks == 0)
  {
    hide Revision;
  }

  lemma EveryPassProgresses(p: Pass)
    requires Rolling(p.c, p.t)
    requires p.analysis.Some? <==> Analyses(true, p.c)
    requires p.analysis.Some? ==> Analysis.ResultFor(p.c, p.analysis.value)
    ensures var c' := p.c.(status := NextStatus(p));
      Ended(c'.status) || (Rolling(c', p.t) && PassesLeft(c') < PassesLeft(p.c))
  {
    RollingPassMoves(p);
    hide Revision, NextStatus, Analysis.MaxFailedChecks, Analysis.ResultFor, Analyses;
    var c' := p.c.(status := NextStatus(p));
    SameLimit(p.c, c');
    if !Ended(c'.status) && c'.status.index == p.c.status.index + 1 {
      ProductStep(|Steps(p.c)| - 1 - c'.status.index, Analysis.MaxFailedChecks(p.c) + 2);
      assert |Steps(p.c)| - 1 - p.c.status.index == |Steps(p.c)| - 1 - c'.status.index + 1;
    }
  }

  lemma SameLimit(c: Canary, c': Canary)
    requires c'.spec == c.spec
    ensures Analysis.MaxFailedChecks(c') == Analysis.MaxFailedChecks(c)
  {
  }

  // ---- Passes in a row ----

  /** `n` passes without faults; pass i gets the replies `replies(i)`. */
  ghost function Drive(w: World, k: Key, replies: nat -> nat -> Analysis.Reply, n: nat): World {
    if n == 0 then w else QuietPass(true, Drive(w, k, replies, n - 1), k, replies(n - 1))
  }

  ghost predicate RollingIn(w: World, k: Key) {
    && k in w.canaries && TargetKey(k, w.canaries[k]) in w.deployments
    && Rolling(w.canaries[k], w.deployments[TargetKey(k, w.canaries[k])])
    && Writable(Pass(k, w.canaries[k], w.deployments[TargetKey(k, w.canaries[k])], None), w)
  }

  ghost predicate NoQueryFails(replies: nat -> Analysis.Reply) {
    forall i :: replies(i).Value?
  }

  lemma PassOfRollout(w: World, k: Key, replies: nat -> Analysis.Reply) returns (p: Pass)
    requires RollingIn(w, k) && NoQueryFails(replies)
    ensures Begin(true, w, k, replies) == Some(p)
    ensures var w' := QuietPass(true, w, k, replies);
      && k in w'.canaries && w'.canaries[k] == w.canaries[k].(status := NextStatus(p))
      && SameAt(w.deployments, w'.deployments, TargetKey(k, w.canaries[k]))
      && Writable(p, w')
  {
    p := Begin(true, w, k, replies).value;
    PassCompletes(p, 0, w);
  }

  lemma StillWritable(p: Pass, q: Pass, w: World)
    requires Writable(p, w) && q.key == p.key && q.t == p.t && q.c.spec == p.c.spec
    ensures Writable(q, w)
  {
    assert Steps(q.c) == Steps(p.c);
  }

  lemma PassMovesRollout(w: World, k: Key, replies: nat -> Analysis.Reply)
    requires RollingIn(w, k) && NoQueryFails(replies)
    ensures var w' := QuietPass(true, w, k, replies);
      && k in w'.canaries
      && w'.canaries[k].spec == w.canaries[k].spec
      && (Ended(w'.canaries[k].status)
          || (RollingIn(w', k) && PassesLeft(w'.canaries[k]) < PassesLeft(w.canaries[k])))
  {
    var p := PassOfRollout(w, k, replies);
    var w' := QuietPass(true, w, k, replies);
    EveryPassProgresses(p);
    StillWritable(p, Pass(k, w'.canaries[k], p.t, None), w');
  }

  ghost predicate EndedAt(w: World, k: Key, replies: nat -> nat -> Analysis.Reply, m: nat) {
    k in Drive(w, k, replies, m).canaries && Ended(Drive(w, k, replies, m).canaries[k].status)
  }

  /** Every one of the `n` passes brought the rollout closer to its end. */
  ghost predicate Closer(w: World, k: Key, replies: nat -> nat -> Analysis.Reply, n: nat)
    requires k in w.canaries
  {
    && RollingIn(Drive(w, k, replies, n), k)
    && PassesLeft(Drive(w, k, replies, n).canaries[k]) + n <= PassesLeft(w.canaries[k])
  }

  lemma OnePassOn(w: World, k: Key, replies: nat -> nat -> Analysis.Reply, n: nat)
    requires k in w.canaries && n > 0 && Closer(w, k, replies, n - 1) && NoQueryFails(replies(n - 1))
    ensures EndedAt(w, k, replies, n) || Closer(w, k, replies, n)
  {
    PassMovesRollout(Drive(w, k, replies, n - 1), k, replies(n - 1));
  }

  lemma {:induction false} EndedOrCloser(w: World, k: Key, replies: nat -> nat -> Analysis.Reply, n: nat)
    requires RollingIn(w, k) && forall i :: NoQueryFails(replies(i))
    ensures (exists m :: 0 < m <= n && EndedAt(w, k, replies, m)) || Closer(w, k, replies, n)
  {
    if n == 0 {
    } else {
      EndedOrCloser(w, k, replies, n - 1);
      if Closer(w, k, replies, n - 1) {
        OnePassOn(w, k, replies, n);
      }
    }
  }

  /** Progressive termination: whatever the metrics say, the rollout has succeeded or rolled back
      within (steps left) * (max + 2) + 1 passes. */
  lemma RolloutEnds(w: World, k: Key, replies: nat -> nat -> Analysis.Reply)
    requires RollingIn(w, k) && forall i :: NoQueryFails(replies(i))
    ensures exists m ::
      && 0 < m <= (|Steps(w.canaries[k])| - w.canaries[k].status.index) * (Analysis.MaxFailedChecks(w.canaries[k]) + 2) + 1
      && EndedAt(w, k, replies, m)
  {
    var c, t := w.canaries[k], w.deployments[TargetKey(k, w.canaries[k])];
    var n := PassesLeft(c);
    PassesLeftIsBounded(c, t);
    EndedOrCloser(w, k, replies, n);
    if Closer(w, k, replies, n) {
      var end := Drive(w, k, replies, n);
      PassesLeftIsBounded(end.canaries[k], end.deployments[TargetKey(k, end.canaries[k])]);
    }
  }

  // ---- The fastest rollout ----

  ghost predicate AllWithin(c: Canary, replies: nat -> Analysis.Reply) {
    && NoQueryFails(replies)
    && forall i: nat | i < |c.spec.analysis.metrics| :: Analysis.Within(replies(i).value, c.spec.analysis.metrics[i])
  }

  /** The rollout stands at step `i`, about to enter its analysis. */
  ghost predicate AtStep(w: World, k: Key, i: int) {
    && RollingIn(w, k)
    && w.canaries[k].status.index == i && !w.canaries[k].status.phase.Analyzing?
    && w.canaries[k].status.failedChecks <= Analysis.MaxFailedChecks(w.canaries[k])
  }

  lemma EnterAnalysis(w: World, k: Key, i: int, replies: nat -> Analysis.Reply)
    requires AtStep(w, k, i) && NoQueryFails(replies)
    ensures var w' := QuietPass(true, w, k, replies);
      && RollingIn(w', k) && w'.canaries[k].spec == w.canaries[k].spec
      && w'.canaries[k].status.index == i && w'.canaries[k].status.phase.Analyzing?
      && w'.canaries[k].status.failedChecks <= Analysis.MaxFailedChecks(w.canaries[k])
  {
    var p := PassOfRollout(w, k, replies);
    var w' := QuietPass(true, w, k, replies);
    PassMovesRollout(w, k, replies);
  }

  lemma PassAnalysis(w: World, k: Key, i: int, replies: nat -> Analysis.Reply)
    requires RollingIn(w, k) && AllWithin(w.canaries[k], replies)
    requires w.canaries[k].status.index == i && w.canaries[k].status.phase.Analyzing?
    requires w.canaries[k].status.failedChecks <= Analysis.MaxFailedChecks(w.canaries[k])
    ensures var w' := QuietPass(true, w, k, replies);
      && k in w'.canaries && w'.canaries[k].spec == w.canaries[k].spec
      && (if i + 1 < |Steps(w.canaries[k])| then AtStep(w', k, i + 1) && w'.canaries[k].status.phase.Progressing?
          else w'.canaries[k].status.phase.Succeeded?)
  {
    var p := PassOfRollout(w, k, replies);
    var w' := QuietPass(true, w, k, replies);
    assert p.analysis.Some? && p.analysis.value.passed;
    PassMovesRollout(w, k, replies);
  }

  /** Every reply of every pass lies within the thresholds of `c`. */
  ghost predicate Healthy(c: Canary, replies: nat -> nat -> Analysis.Reply) {
    forall n :: AllWithin(c, replies(n))
  }

  /** Step `i` of the rollout of `c` is reached, and its analysis is next. */
  ghost predicate Reaches(w: World, k: Key, c: Canary, i: int) {
    AtStep(w, k, i) && w.canaries[k].spec == c.spec && (i > 0 ==> w.canaries[k].status.phase.Progressing?)
  }

  /** Two passes at step `i`: one enters the analysis, one passes it. */
  lemma TwoMore(w: World, k: Key, c: Canary, replies: nat -> nat -> Analysis.Reply, n: nat, i: nat)
    requires Healthy(c, replies) && Reaches(Drive(w, k, replies, n), k, c, i)
    ensures var w1 := Drive(w, k, replies, n + 1);
      k in w1.canaries && w1.canaries[k].status.phase.Analyzing?
    ensures var w2 := Drive(w, k, replies, n + 2);
      if i + 1 < |Steps(c)| then Reaches(w2, k, c, i + 1)
      else k in w2.canaries && w2.canaries[k].status.phase.Succeeded?
  {
    var w0, w1 := Drive(w, k, replies, n), Drive(w, k, replies, n + 1);
    assert AllWithin(c, replies(n)) && AllWithin(c, replies(n + 1));
    EnterAnalysis(w0, k, i, replies(n));
    assert w1 == QuietPass(true, w0, k, replies(n));
    PassAnalysis(w1, k, i, replies(n + 1));
    assert Drive(w, k, replies, n + 2) == QuietPass(true, w1, k, replies(n + 1));
  }

  ghost predicate StandsAt(w: World, k: Key, c: Canary, replies: nat -> nat -> Analysis.Reply, n: nat, i: int) {
    Reaches(Drive(w, k, replies, n), k, c, i)
  }

  lemma OneStepOn(w: World, k: Key, c: Canary, replies: nat -> nat -> Analysis.Reply, n: nat, i: nat, m: nat)
    requires Healthy(c, replies) && StandsAt(w, k, c, replies, n, i) && i + 1 < |Steps(c)| && m == n + 2
    ensures StandsAt(w, k, c, replies, m, i + 1)
  {
    TwoMore(w, k, c, replies, n, i);
  }

  lemma {:induction false} StandsAtStep(w: World, k: Key, c: Canary, replies: nat -> nat -> Analysis.Reply, i: nat)
    requires Healthy(c, replies) && StandsAt(w, k, c, replies, 0, 0) && i < |Steps(c)|
    ensures StandsAt(w, k, c, replies, 2 * i, i)
  {
    if i == 0 {
    } else {
      StandsAtStep(w, k, c, replies, i - 1);
      OneStepOn(w, k, c, replies, 2 * (i - 1), i - 1, 2 * i);
    }
  }

  /** After `n` passes the Canary is in `phase`. */
  ghost predicate PhaseAfter(w: World, k: Key, replies: nat -> nat -> Analysis.Reply, n: nat, phase: Phase) {
    k in Drive(w, k, replies, n).canaries && Drive(w, k, replies, n).canaries[k].status.phase == phase
  }

  lemma PhasesFrom(w: World, k: Key, c: Canary, replies: nat -> nat -> Analysis.Reply, n: nat, i: nat, m: nat)
    requires Healthy(c, replies) && StandsAt(w, k, c, replies, n, i) && i < |Steps(c)| && n < m <= n + 2
    ensures PhaseAfter(w, k, replies, m, if m == n + 1 then Analyzing else if i + 1 < |Steps(c)| then Progressing else Succeeded)
  {
    TwoMore(w, k, c, replies, n, i);
  }

  /** If every analysis passes, a rollout from step 0 enters the analysis of step `i` with pass
      2i + 1 and leaves it with pass 2i + 2, which for the last step means success: it succeeds
      with pass 2 * len(steps) and no sooner. */
  lemma FastestRollout(w: World, k: Key, c: Canary, replies: nat -> nat -> Analysis.Reply, i: nat)
    requires Healthy(c, replies) && StandsAt(w, k, c, replies, 0, 0) && i < |Steps(c)|
    ensures PhaseAfter(w, k, replies, 2 * i + 1, Analyzing)
    ensures PhaseAfter(w, k, replies, 2 * i + 2, if i + 1 < |Steps(c)| then Progressing else Succeeded)
  {
    StandsAtStep(w, k, c, replies, i);
    PhasesFrom(w, k, c, replies, 2 * i, i, 2 * i + 1);
    PhasesFrom(w, k, c, replies, 2 * i, i, 2 * i + 2);
  }
}
