/** What runs and what gets traffic, step by step, along a progressive rollout without faults. */
module Exposure {
  import opened Api
  import opened Rollout
  import opened Passes
  import opened Runs
  import opened Progress
  import opened Limits
  import Analysis
  import Traffic
  import Workload

  /** The pass that would start now, as far as traffic and workload are concerned. */
  function Now(w: World, k: Key): Pass
    requires k in w.canaries && TargetKey(k, w.canaries[k]) in w.deployments
  {
    Pass(k, w.canaries[k], w.deployments[TargetKey(k, w.canaries[k])], None)
  }

  /** Step `i` is out: its weight is routed, to the canary Service only, and the canary Deployment
      runs the target's template. */
  ghost predicate Deployed(w: World, p: Pass, i: int)
    requires 0 <= i < |Steps(p.c)|
  {
    && Traffic.Routed(w, p.key, p.c, Steps(p.c)[i])
    && DeploymentMatches(w, p)
    && (p.c.spec.service.port != 0 ==> ServiceMatches(w, p))
  }

  /** At step 0 nothing is out; from step 1 on the step is. */
  ghost predicate Out(w: World, p: Pass, i: int)
    requires 0 <= i < |Steps(p.c)|
  {
    if i == 0 then Clean(w, p.key, p.c) else Deployed(w, p, i)
  }

  ghost predicate Exposed(w: World, k: Key) {
    && RollingIn(w, k)
    && var p := Now(w, k); var st := p.c.status;
    && (st.phase.Analyzing? ==> st.weight == Steps(p.c)[st.index])
    && Out(w, p, st.index)
  }

  lemma {:induction false} PassEstablishes(p: Pass, n: nat, w: World)
    requires Writable(p, w) && n <= |Plan(p)| && Established(p, n, w)
    ensures Established(p, |Plan(p)|, RunFrom(p, n, w))
    decreases |Plan(p)| - n
  {
    if n == |Plan(p)| {
      assert RunFrom(p, n, w) == w;
    } else {
      WriteSucceeds(p, n, w);
      var w' := Apply(Plan(p)[n], p, w).value;
      WriteLeavesWritable(Plan(p)[n], p, w, w');
      WriteEstablishes(p, n, w, w');
      PassEstablishes(p, n + 1, w');
    }
  }

  /** A pass that advances brings the step out that it stores. */
  lemma AdvanceDeploys(p: Pass, w: World)
    requires Writable(p, w) && SetsUp(p)
    ensures 0 <= NextStatus(p).index < |Steps(p.c)| && Deployed(RunFrom(p, 0, w), p, NextStatus(p).index)
  {
    PlanShape(p, 0);
    StatusOfSetUp(p);
    PassEstablishes(p, 0, w);
  }

  /** A pass that does neither set up nor tear down leaves what is out. */
  lemma HoldLeavesOut(p: Pass, w: World, i: int)
    requires Body(p) == [] && 0 <= i < |Steps(p.c)|
    ensures Out(RunFrom(p, 0, w), p, i) <==> Out(w, p, i)
  {
    NoBodyNoObjects(p, 0, w);
  }

  /** What is out does not depend on the Canary's status. */
  lemma StatusPlaysNoPart(w: World, p: Pass, q: Pass, i: int)
    requires q.key == p.key && q.t == p.t && q.c.spec == p.c.spec && 0 <= i < |Steps(p.c)|
    ensures Out(w, p, i) == Out(w, q, i)
  {
  }

  /** Outside the passes that end it, a progressive rollout without commands holds in Analyzing or advances. */
  lemma RollingPassKinds(p: Pass)
    requires Rolling(p.c, p.t) && !EndsRollout(p)
    ensures SetsUp(p) ==> NextStatus(p).index == p.c.status.index + 1 && !NextStatus(p).phase.Analyzing?
    ensures !SetsUp(p) ==>
      && Body(p) == [] && NextStatus(p).index == p.c.status.index
      && NextStatus(p).weight == Steps(p.c)[p.c.status.index]
  {
  }

  lemma PassMovesOut(p: Pass, w: World)
    requires Writable(p, w) && Rolling(p.c, p.t) && !EndsRollout(p) && Out(w, p, p.c.status.index)
    ensures var st := NextStatus(p);
      && 0 <= st.index < |Steps(p.c)| && Out(RunFrom(p, 0, w), p, st.index)
      && (st.phase.Analyzing? ==> st.weight == Steps(p.c)[st.index])
  {
    RollingPassKinds(p);
    if SetsUp(p) {
      AdvanceDeploys(p, w);
    } else {
      HoldLeavesOut(p, w, p.c.status.index);
    }
  }

  lemma PassKeepsExposure(w: World, k: Key, replies: nat -> Analysis.Reply)
    requires Exposed(w, k) && NoQueryFails(replies)
    ensures var w' := QuietPass(true, w, k, replies);
      k in w'.canaries && (Ended(w'.canaries[k].status) || Exposed(w', k))
  {
    var p := PassOfRollout(w, k, replies);
    var w' := QuietPass(true, w, k, replies);
    PassMovesRollout(w, k, replies);
    if !Ended(w'.canaries[k].status) {
      if EndsRollout(p) {
        EndingIsEnded(p);
      }
      StatusPlaysNoPart(w, Now(w, k), p, p.c.status.index);
      PassMovesOut(p, w);
      StatusPlaysNoPart(w', p, Now(w', k), NextStatus(p).index);
    }
  }

  lemma EndingIsEnded(p: Pass)
    requires Rolling(p.c, p.t) && EndsRollout(p)
    ensures Ended(NextStatus(p))
  {
  }

  ghost predicate ExposedAfter(w: World, k: Key, replies: nat -> nat -> Analysis.Reply, n: nat) {
    Exposed(Drive(w, k, replies, n), k)
  }

  lemma OneMorePass(w: World, k: Key, replies: nat -> nat -> Analysis.Reply, n: nat)
    requires ExposedAfter(w, k, replies, n) && NoQueryFails(replies(n))
    ensures EndedAt(w, k, replies, n + 1) || ExposedAfter(w, k, replies, n + 1)
  {
    PassKeepsExposure(Drive(w, k, replies, n), k, replies(n));
  }

  /** Whatever the metrics say: in every state up to the end of the rollout, nothing is out at step 0,
      and at every later step its weight is routed to a canary that runs the target's template. */
  lemma {:induction false} RolloutIsExposed(w: World, k: Key, replies: nat -> nat -> Analysis.Reply, n: nat)
    requires Exposed(w, k) && forall i :: NoQueryFails(replies(i))
    ensures (exists m :: 0 < m <= n && EndedAt(w, k, replies, m)) || ExposedAfter(w, k, replies, n)
  {
    hide Exposed, EndedAt, NoQueryFails, QuietPass;
    if n == 0 {
      assert Drive(w, k, replies, 0) == w;
    } else {
      RolloutIsExposed(w, k, replies, n - 1);
      if ExposedAfter(w, k, replies, n - 1) {
        OneMorePass(w, k, replies, n - 1);
      }
    }
  }

  /** A rollout about to begin: at step 0, before its first analysis, with nothing left over. */
  ghost predicate AboutToBegin(w: World, k: Key) {
    && RollingIn(w, k) && Clean(w, k, w.canaries[k])
    && w.canaries[k].status.index == 0 && !w.canaries[k].status.phase.Analyzing?
  }

  lemma AnalyzedShare(w: World, k: Key)
    requires Exposed(w, k) && w.canaries[k].status.phase.Analyzing?
    ensures var c := w.canaries[k];
      Traffic.Live(w, k, c) == Traffic.Observed(c, c.status.weight)
      <==> c.status.index >= 1 || Traffic.Observed(c, c.status.weight) == 0
  {
    var c := w.canaries[k];
    if c.status.index == 0 {
      NoTrafficIsNotLive(w, k, c);
    } else {
      Traffic.RoutedShows(w, k, c, c.status.weight);
    }
  }

  /** While a rollout is being analysed, the weight it stores is the share the canary gets if and
      only if the step is not the first, or is too small for the router to show. */
  lemma StoredWeightIsLiveFromStepOne(w: World, k: Key, replies: nat -> nat -> Analysis.Reply, n: nat)
    requires AboutToBegin(w, k) && forall i :: NoQueryFails(replies(i))
    ensures (exists m :: 0 < m <= n && EndedAt(w, k, replies, m)) ||
      var w' := Drive(w, k, replies, n);
      && k in w'.canaries
      && var c := w'.canaries[k];
      && (c.status.phase.Analyzing? ==>
            (Traffic.Live(w', k, c) == Traffic.Observed(c, c.status.weight)
             <==> c.status.index >= 1 || Traffic.Observed(c, c.status.weight) == 0))
  {
    assert Exposed(w, k);
    RolloutIsExposed(w, k, replies, n);
    if ExposedAfter(w, k, replies, n) {
      var w' := Drive(w, k, replies, n);
      if w'.canaries[k].status.phase.Analyzing? {
        AnalyzedShare(w', k);
      }
    }
  }

  /** A schedule of one step is analysed, and ends, without any canary ever being out. */
  lemma OneStepNeedsNoCanary(w: World, k: Key, replies: nat -> nat -> Analysis.Reply, n: nat)
    requires AboutToBegin(w, k) && |Steps(w.canaries[k])| == 1 && forall i :: NoQueryFails(replies(i))
    ensures (exists m :: 0 < m <= n && EndedAt(w, k, replies, m)) ||
      var w' := Drive(w, k, replies, n); k in w'.canaries && Clean(w', k, w'.canaries[k])
  {
    RolloutIsExposed(w, k, replies, n);
    if ExposedAfter(w, k, replies, n) {
      SpecIsKept(w, k, replies, n);
    }
  }

  lemma {:induction false} SpecIsKept(w: World, k: Key, replies: nat -> nat -> Analysis.Reply, n: nat)
    requires k in w.canaries
    ensures var w' := Drive(w, k, replies, n); k in w'.canaries && w'.canaries[k].spec == w.canaries[k].spec
  {
    if n == 0 {
      assert Drive(w, k, replies, 0) == w;
    } else {
      SpecIsKept(w, k, replies, n - 1);
      var before := Drive(w, k, replies, n - 1);
      PassKeepsSpecs(Begin(true, before, k, replies(n - 1)), before, k);
    }
  }

  lemma PassKeepsSpecs(begun: Option<Pass>, w: World, k: Key)
    requires k in w.canaries
    ensures var w' := if begun.Some? then RunFrom(begun.value, 0, w) else w;
      k in w'.canaries && w'.canaries[k].spec == w.canaries[k].spec
  {
    if begun.Some? {
      WritesKeepSpecs(begun.value, 0, w, k);
    }
  }

  lemma {:induction false} WritesKeepSpecs(p: Pass, n: nat, w: World, k: Key)
    requires k in w.canaries
    ensures k in RunFrom(p, n, w).canaries && RunFrom(p, n, w).canaries[k].spec == w.canaries[k].spec
    decreases |Plan(p)| - n
  {
    if n >= |Plan(p)| || Apply(Plan(p)[n], p, w).Err? {
    } else {
      var w' := Apply(Plan(p)[n], p, w).value;
      WritesToCanaries(Plan(p)[n], p, w, w');
      WritesKeepSpecs(p, n + 1, w', k);
    }
  }

  /** `w'` is a later state of the rollout that `w` is in. */
  ghost predicate SameRollout(w: World, w': World, k: Key) {
    && RollingIn(w, k) && RollingIn(w', k)
    && Now(w', k).t == Now(w, k).t && w'.canaries[k].status.stable == w.canaries[k].status.stable
  }

  lemma RollingPassKeepsTarget(w: World, k: Key, replies: nat -> Analysis.Reply)
    requires RollingIn(w, k) && NoQueryFails(replies) && RollingIn(QuietPass(true, w, k, replies), k)
    ensures SameRollout(w, QuietPass(true, w, k, replies), k)
  {
    var p := PassOfRollout(w, k, replies);
    assert EndsRollout(p) ==> NextStatus(p).stable == Revision(p.t);
  }

  lemma DriveOnce(w: World, k: Key, replies: nat -> nat -> Analysis.Reply, n: nat)
    requires ExposedAfter(w, k, replies, n) && ExposedAfter(w, k, replies, n + 1) && NoQueryFails(replies(n))
    ensures SameRollout(Drive(w, k, replies, n), Drive(w, k, replies, n + 1), k)
  {
    RollingPassKeepsTarget(Drive(w, k, replies, n), k, replies(n));
  }

  lemma NotEnded(w: World, k: Key, replies: nat -> nat -> Analysis.Reply, n: nat, phase: Phase)
    requires PhaseAfter(w, k, replies, n, phase) && !phase.Succeeded? && !phase.RolledBack?
    ensures !EndedAt(w, k, replies, n)
  {
  }

  /** After `n` passes the rollout that began in `w` is still on, and exposed as it should be. */
  ghost predicate GoesOn(w: World, k: Key, replies: nat -> nat -> Analysis.Reply, n: nat) {
    ExposedAfter(w, k, replies, n) && SameRollout(w, Drive(w, k, replies, n), k)
  }

  lemma GoesOnOnce(w: World, k: Key, replies: nat -> nat -> Analysis.Reply, n: nat)
    requires GoesOn(w, k, replies, n) && NoQueryFails(replies(n)) && !EndedAt(w, k, replies, n + 1)
    ensures GoesOn(w, k, replies, n + 1)
  {
    hide Exposed, EndedAt, Drive, RollingIn;
    OneMorePass(w, k, replies, n);
    DriveOnce(w, k, replies, n);
  }

  lemma HealthyStepGoesOn(w: World, k: Key, c: Canary, replies: nat -> nat -> Analysis.Reply, n: nat, i: nat)
    requires Healthy(c, replies) && StandsAt(w, k, c, replies, n, i) && i < |Steps(c)| && GoesOn(w, k, replies, n)
    ensures GoesOn(w, k, replies, n + 1)
    ensures i + 1 < |Steps(c)| ==> GoesOn(w, k, replies, n + 2)
  {
    assert AllWithin(c, replies(n)) && AllWithin(c, replies(n + 1));
    hide GoesOn, StandsAt, Drive, EndedAt, PhaseAfter, Healthy;
    PhasesFrom(w, k, c, replies, n, i, n + 1);
    NotEnded(w, k, replies, n + 1, Analyzing);
    GoesOnOnce(w, k, replies, n);
    if i + 1 < |Steps(c)| {
      PhasesFrom(w, k, c, replies, n, i, n + 2);
      NotEnded(w, k, replies, n + 2, Progressing);
      GoesOnOnce(w, k, replies, n + 1);
    }
  }

  lemma {:induction false} HealthyRolloutGoesOn(w: World, k: Key, c: Canary, replies: nat -> nat -> Analysis.Reply, i: nat)
    requires Healthy(c, replies) && StandsAt(w, k, c, replies, 0, 0) && GoesOn(w, k, replies, 0) && i < |Steps(c)|
    ensures GoesOn(w, k, replies, 2 * i)
  {
    hide *;
    if i == 0 {
      assert 2 * i == 0;
    } else {
      HealthyRolloutGoesOn(w, k, c, replies, i - 1);
      StandsAtStep(w, k, c, replies, i - 1);
      HealthyStepGoesOn(w, k, c, replies, 2 * (i - 1), i - 1);
      assert 2 * (i - 1) + 2 == 2 * i;
    }
  }

  /** The cluster with another Deployment in the target's place. */
  function Bumped(w: World, k: Key, t: Deployment): World
    requires k in w.canaries
  {
    w.(deployments := w.deployments[TargetKey(k, w.canaries[k]) := t])
  }

  ghost predicate AtLastAnalysis(w: World, k: Key) {
    && RollingIn(w, k)
    && w.canaries[k].status.phase.Analyzing?
    && w.canaries[k].status.index == |Steps(w.canaries[k])| - 1
    && w.canaries[k].status.failedChecks <= Analysis.MaxFailedChecks(w.canaries[k])
  }

  lemma StartGoesOn(w: World, k: Key, replies: nat -> nat -> Analysis.Reply)
    requires AboutToBegin(w, k) && w.canaries[k].status.failedChecks <= Analysis.MaxFailedChecks(w.canaries[k])
    ensures k in w.canaries && |Steps(w.canaries[k])| > 0
    ensures StandsAt(w, k, w.canaries[k], replies, 0, 0) && GoesOn(w, k, replies, 0)
  {
    assert Drive(w, k, replies, 0) == w;
  }

  /** `w'` is the state of the rollout that began in `w` in which its last analysis is due, with the
      last step out. */
  ghost predicate ComesToLastAnalysis(w: World, w': World, k: Key) {
    SameRollout(w, w', k) && Exposed(w', k) && AtLastAnalysis(w', k) && w'.canaries[k].spec == w.canaries[k].spec
  }

  lemma AnalysisFollows(w: World, k: Key, c: Canary, replies: nat -> nat -> Analysis.Reply, n: nat, i: nat)
    requires Healthy(c, replies) && StandsAt(w, k, c, replies, n, i) && i == |Steps(c)| - 1
    requires GoesOn(w, k, replies, n + 1) && w.canaries[k].spec == c.spec
    ensures ComesToLastAnalysis(w, Drive(w, k, replies, n + 1), k)
  {
    assert AllWithin(c, replies(n));
    hide QuietPass, Healthy, Rolling, Writable;
    EnterAnalysis(Drive(w, k, replies, n), k, i, replies(n));
  }

  lemma LastStepGoesOn(w: World, k: Key, c: Canary, replies: nat -> nat -> Analysis.Reply, last: nat)
    requires Healthy(c, replies) && StandsAt(w, k, c, replies, 0, 0) && GoesOn(w, k, replies, 0)
    requires last == |Steps(c)| - 1
    ensures StandsAt(w, k, c, replies, 2 * last, last) && GoesOn(w, k, replies, 2 * last + 1)
  {
    hide Healthy, StandsAt, GoesOn;
    StandsAtStep(w, k, c, replies, last);
    HealthyRolloutGoesOn(w, k, c, replies, last);
    HealthyStepGoesOn(w, k, c, replies, 2 * last, last);
  }

  /** If every analysis passes, the rollout comes to its last one, with its last step out. */
  lemma LastAnalysisIsReached(w: World, k: Key, replies: nat -> nat -> Analysis.Reply) returns (n: nat)
    requires AboutToBegin(w, k) && Healthy(w.canaries[k], replies)
    requires w.canaries[k].status.failedChecks <= Analysis.MaxFailedChecks(w.canaries[k])
    ensures n == 2 * |Steps(w.canaries[k])| - 1 && ComesToLastAnalysis(w, Drive(w, k, replies, n), k)
  {
    hide ComesToLastAnalysis, StandsAt, Healthy, Drive, GoesOn, Rolling, Writable, Clean;
    StartGoesOn(w, k, replies);
    var c, last := w.canaries[k], |Steps(w.canaries[k])| - 1;
    LastStepGoesOn(w, k, c, replies, last);
    AnalysisFollows(w, k, c, replies, 2 * last, last);
    n := 2 * last + 1;
  }

  lemma LastAnalysisPromotes(w: World, k: Key, replies: nat -> Analysis.Reply)
    requires AtLastAnalysis(w, k) && AllWithin(w.canaries[k], replies)
    ensures var w' := QuietPass(true, w, k, replies);
      k in w'.canaries && w'.canaries[k].status.phase.Succeeded? && w'.canaries[k].status.stable == Revision(Now(w, k).t)
  {
    var p := PassOfRollout(w, k, replies);
    assert p.analysis.Some? && p.analysis.value.passed;
    assert Decide(p).verb.Promote? && Decide(p).phase.Succeeded?;
  }

  lemma BumpedIsRolling(w: World, k: Key, t: Deployment)
    requires AtLastAnalysis(w, k) && Revision(t) != w.canaries[k].status.stable && !Workload.SelectorIsNilMap(t)
    ensures AtLastAnalysis(Bumped(w, k, t), k)
    ensures CanaryKey(k, w.canaries[k]) in w.deployments ==>
      var key := CanaryKey(k, w.canaries[k]); key in Bumped(w, k, t).deployments && Bumped(w, k, t).deployments[key] == w.deployments[key]
  {
    assert |CanaryKey(k, w.canaries[k]).name| == |TargetKey(k, w.canaries[k]).name| + 7;
  }

  /** The gate does not look at the revision: a target whose template is changed during the last
      analysis is promoted, although the canary that was analysed runs the template before the change.
      `Ledger.PromotedWasOut` says when the promoted revision is the one that was out. */
  lemma BumpedTargetIsPromoted(w: World, k: Key, t: Deployment, replies: nat -> Analysis.Reply)
    requires Exposed(w, k) && AtLastAnalysis(w, k) && w.canaries[k].status.index >= 1
    requires AllWithin(w.canaries[k], replies)
    requires Revision(t) != w.canaries[k].status.stable && !Workload.SelectorIsNilMap(t)
    requires Workload.CanaryDeploymentSpec(t) != Workload.CanaryDeploymentSpec(Now(w, k).t)
    ensures DeploymentMatches(Bumped(w, k, t), Now(w, k)) && !DeploymentMatches(Bumped(w, k, t), Now(Bumped(w, k, t), k))
    ensures var w' := QuietPass(true, Bumped(w, k, t), k, replies);
      k in w'.canaries && w'.canaries[k].status.phase.Succeeded? && w'.canaries[k].status.stable == Revision(t)
  {
    BumpedIsRolling(w, k, t);
    LastAnalysisPromotes(Bumped(w, k, t), k, replies);
  }
}
