/** What each stored status says about the passes behind it, told by the annotations, the spec and the
    revisions they read. */
module Verdicts {
  import opened Api
  import opened Rollout
  import opened Passes
  import opened Runs
  import opened Ledger
  import Analysis
  import Decimal
  import Traffic
  import Webhook

  // ---- What a pass has found ----

  predicate ToldToAbort(p: Pass) {
    "kanary.io/abort" in p.c.annotations && p.c.annotations["kanary.io/abort"] == "true"
  }

  predicate ToldToPromote(p: Pass) {
    "kanary.io/promote" in p.c.annotations && p.c.annotations["kanary.io/promote"] == "true"
  }

  /** A rollout is on: steps, a known stable revision, and a target at another one. */
  predicate NewRevision(p: Pass) {
    |p.c.spec.strategy.steps| > 0 && p.c.status.stable != "" && p.c.status.stable != Revision(p.t)
  }

  predicate AtSomeStep(p: Pass) {
    0 <= p.c.status.index < |p.c.spec.strategy.steps|
  }

  predicate AtLastStep(p: Pass) {
    p.c.status.index == |p.c.spec.strategy.steps| - 1
  }

  /** The pass has analysed, found every metric in order, and had no more failures stored than allowed. */
  predicate AnalysedWell(p: Pass) {
    p.analysis.Some? && p.analysis.value.passed && p.c.status.failedChecks <= Analysis.MaxFailedChecks(p.c)
  }

  predicate TooManyFailures(p: Pass) {
    p.analysis.Some? && p.c.status.failedChecks > Analysis.MaxFailedChecks(p.c)
  }

  predicate KnownMode(p: Pass) {
    !p.c.spec.strategy.mode.OtherMode?
  }

  /** The rollout moves on from its step. */
  predicate StepIsDone(p: Pass) {
    && !ToldToAbort(p) && NewRevision(p) && AtSomeStep(p) && KnownMode(p)
    && (ToldToPromote(p) || AnalysedWell(p))
  }

  /** There is a schedule and nothing new to roll out. */
  predicate NothingNew(p: Pass) {
    !ToldToAbort(p) && |p.c.spec.strategy.steps| > 0 && p.c.status.stable == Revision(p.t)
  }

  predicate Underway(p: Pass) {
    !ToldToAbort(p) && NewRevision(p) && AtSomeStep(p)
  }

  // ---- Each phase, and when it is stored ----

  lemma WhenSucceeded(engine: bool, k: Key, p: Pass)
    requires WellRead(engine, k, p)
    ensures NextStatus(p).phase.Succeeded? <==>
      (StepIsDone(p) && AtLastStep(p)) || (NothingNew(p) && p.c.status.phase.Succeeded?)
    ensures Decide(p).verb.Promote? <==> StepIsDone(p) && AtLastStep(p)
  {
  }

  lemma WhenRolledBack(engine: bool, k: Key, p: Pass)
    requires WellRead(engine, k, p)
    ensures NextStatus(p).phase.RolledBack? <==>
      || ToldToAbort(p)
      || (Underway(p) && !ToldToPromote(p) && TooManyFailures(p))
      || (NothingNew(p) && p.c.status.phase.RolledBack?)
    ensures ToldToAbort(p) ==> Decide(p).verb.Rollback?
  {
  }

  lemma WhenFailed(p: Pass)
    ensures NextStatus(p).phase.Failed? <==> !ToldToAbort(p) && NewRevision(p) && !AtSomeStep(p)
  {
  }

  lemma WhenProgressing(engine: bool, k: Key, p: Pass)
    requires WellRead(engine, k, p)
    ensures NextStatus(p).phase.Progressing? <==> StepIsDone(p) && !AtLastStep(p)
    ensures Decide(p).verb.Advance? <==> StepIsDone(p) && !AtLastStep(p)
  {
  }

  lemma WhenAwaiting(p: Pass)
    ensures NextStatus(p).phase.AwaitingPromotion? <==>
      && Underway(p) && !ToldToPromote(p)
      && (p.c.spec.strategy.mode.Manual? || p.c.spec.strategy.mode.NoMode?)
  {
  }

  lemma WhenAnalyzing(engine: bool, k: Key, p: Pass)
    requires WellRead(engine, k, p)
    ensures NextStatus(p).phase.Analyzing? <==>
      && Underway(p) && !ToldToPromote(p) && p.c.spec.strategy.mode.Progressive?
      && !AnalysedWell(p) && !TooManyFailures(p)
  {
  }

  lemma WhenIdle(p: Pass)
    ensures NextStatus(p).phase.Idle? <==>
      && !ToldToAbort(p)
      && (|| |p.c.spec.strategy.steps| == 0
          || p.c.status.stable == ""
          || (NothingNew(p) && !p.c.status.phase.Succeeded? && !p.c.status.phase.RolledBack?)
          || (Underway(p) && !KnownMode(p)))
  {
  }

  /** Every pass stores one of these seven. */
  lemma OnePhaseOfSeven(p: Pass)
    ensures var phase := NextStatus(p).phase;
      || phase.Succeeded? || phase.RolledBack? || phase.Failed? || phase.Progressing?
      || phase.AwaitingPromotion? || phase.Analyzing? || phase.Idle?
  {
  }

  /** The weight that goes with the phase: that of the stored step while a rollout is on, that of the
      last step when it has just succeeded, and 0 otherwise. */
  lemma WeightOfPhase(p: Pass)
    ensures var st := NextStatus(p);
      && (Active(st.phase) ==> 0 <= st.index < |p.c.spec.strategy.steps| && st.weight == p.c.spec.strategy.steps[st.index])
      && (Decide(p).verb.Promote? ==> |p.c.spec.strategy.steps| > 0 && st.weight == p.c.spec.strategy.steps[|p.c.spec.strategy.steps| - 1])
      && (!Active(st.phase) && !Decide(p).verb.Promote? ==> st.weight == 0)
  {
  }

  /** With an accepted schedule a promotion stores weight 100. */
  lemma PromotionIsAtFullWeight(p: Pass)
    requires Webhook.Accepted(p.c.spec.strategy.steps) && Decide(p).verb.Promote?
    ensures NextStatus(p).weight == 100
  {
    WeightOfPhase(p);
  }

  // ---- The same, of stored statuses ----

  /** The last pass that ended a rollout. */
  function LastEnd(hist: seq<Pass>): (end: Option<Pass>)
    ensures end.Some? ==> end.value in hist && EndsRollout(end.value)
  {
    if hist == [] then None
    else if EndsRollout(hist[|hist| - 1]) then Some(hist[|hist| - 1])
    else LastEnd(hist[..|hist| - 1])
  }

  lemma EndsByVerdict(p: Pass)
    ensures Decide(p).verb.Promote? ==> EndsRollout(p)
    ensures Decide(p).verb.Rollback? ==> EndsRollout(p)
    ensures EndsRollout(p) && NextStatus(p).phase.Succeeded? ==> Decide(p).verb.Promote?
    ensures !EndsRollout(p) && NextStatus(p).phase.Succeeded? ==> p.c.status.phase.Succeeded?
    ensures !EndsRollout(p) && NextStatus(p).phase.RolledBack? ==> p.c.status.phase.RolledBack?
  {
  }

  /** A status Succeeded is earned: the last pass that ended a rollout was not told to abort, stood at
      the last step, and was told to promote or had analysed well. */
  lemma {:induction false} SucceededIsEarned(engine: bool, k: Key, hist: seq<Pass>)
    requires Chain(engine, k, hist) && StatusAfter(hist).phase.Succeeded?
    ensures LastEnd(hist).Some? && StepIsDone(LastEnd(hist).value) && AtLastStep(LastEnd(hist).value)
  {
    hide Decide, NextStatus, WellRead, StepIsDone;
    if hist == [] {
    } else {
      var last := hist[|hist| - 1];
      ChainPrefix(engine, k, hist);
      WhenSucceeded(engine, k, last);
      EndsByVerdict(last);
      if !EndsRollout(last) {
        SucceededIsEarned(engine, k, hist[..|hist| - 1]);
      }
    }
  }

  /** A status RolledBack has one of two causes: the last pass that ended a rollout was told to abort,
      or it analysed a rollout with too many failures behind it. */
  lemma {:induction false} RolledBackHasACause(engine: bool, k: Key, hist: seq<Pass>)
    requires Chain(engine, k, hist) && StatusAfter(hist).phase.RolledBack?
    ensures LastEnd(hist).Some?
    ensures var p := LastEnd(hist).value;
      ToldToAbort(p) || (Underway(p) && !ToldToPromote(p) && TooManyFailures(p))
  {
    hide Decide, NextStatus, WellRead, ToldToAbort, Underway;
    if hist == [] {
    } else {
      var last := hist[|hist| - 1];
      ChainPrefix(engine, k, hist);
      WhenRolledBack(engine, k, last);
      EndsByVerdict(last);
      if EndsRollout(last) {
        EndIsNotRest(last);
      } else {
        RolledBackHasACause(engine, k, hist[..|hist| - 1]);
      }
    }
  }

  lemma EndIsNotRest(p: Pass)
    requires EndsRollout(p)
    ensures !NothingNew(p)
  {
  }

  /** In every run a completed pass that was told to abort has rolled back: whatever the rest of the
      Canary says, the status is RolledBack with no weight, at step 0, without a canary revision, and
      the target's revision is the stable one. */
  lemma AbortRollsBack(engine: bool, k: Key, tr: seq<Sys>, i: nat, p: Pass)
    requires IsRun(engine, k, tr) && i + 1 < |tr| && Completes(tr[i], tr[i + 1], p) && ToldToAbort(p)
    ensures k in tr[i + 1].w.canaries
    ensures var st := Own(k, tr[i + 1]).status;
      && st.phase.RolledBack? && st.weight == 0 && st.index == 0 && st.canary == "" && st.stable == Revision(p.t)
    ensures Clean(tr[i + 1].w, k, Own(k, tr[i + 1])) && Traffic.AllToStable(tr[i + 1].w, k, Own(k, tr[i + 1]))
  {
    CoreAt(engine, k, tr, i);
    AbortIsStored(p);
    EndIsStored(engine, k, tr[i], tr[i + 1], p);
  }

  lemma AbortIsStored(p: Pass)
    requires ToldToAbort(p)
    ensures EndsRollout(p) && NextStatus(p).phase.RolledBack? && NextStatus(p).weight == 0
    ensures NextStatus(p).index == 0 && NextStatus(p).canary == "" && NextStatus(p).stable == Revision(p.t)
  {
  }

  /** In every run a completed pass that ends a rollout leaves nothing of the canary, and gives all
      traffic to the stable side: a Route has its full weight there, and no other backend. */
  lemma EndGivesStableAll(engine: bool, k: Key, tr: seq<Sys>, i: nat, p: Pass)
    requires IsRun(engine, k, tr) && i + 1 < |tr| && Completes(tr[i], tr[i + 1], p) && EndsRollout(p)
    ensures k in tr[i + 1].w.canaries && Own(k, tr[i + 1]).status == NextStatus(p)
    ensures Clean(tr[i + 1].w, k, Own(k, tr[i + 1])) && Traffic.AllToStable(tr[i + 1].w, k, Own(k, tr[i + 1]))
  {
    CoreAt(engine, k, tr, i);
    EndIsStored(engine, k, tr[i], tr[i + 1], p);
  }

  lemma EndIsStored(engine: bool, k: Key, s: Sys, s': Sys, p: Pass)
    requires Core(engine, k, s) && Completes(s, s', p) && EndsRollout(p)
    ensures k in s'.w.canaries && Own(k, s').status == NextStatus(p)
    ensures Clean(s'.w, k, Own(k, s')) && Traffic.AllToStable(s'.w, k, Own(k, s'))
  {
    hide Decide, NextStatus, Chain, StatusAfter;
    PlanShape(p, |Plan(p)| - 1);
    WritesToCanaries(PersistStatus, p, s.w, s'.w);
    WriteEstablishes(p, |Plan(p)| - 1, s.w, s'.w);
    AllToStableByRefs(s'.w, k, p.c, Own(k, s'));
  }

  lemma AllToStableByRefs(w: World, k: Key, c: Canary, c': Canary)
    requires SameRefs(c, c')
    ensures Clean(w, k, c) <==> Clean(w, k, c')
    ensures Traffic.AllToStable(w, k, c) <==> Traffic.AllToStable(w, k, c')
  {
  }

  // ---- The last analysis ----

  /** The report of the last analysis in the history. */
  function LastReport(hist: seq<Pass>): Option<seq<AnalysisEntry>> {
    if hist == [] then None
    else if hist[|hist| - 1].analysis.Some? then Some(hist[|hist| - 1].analysis.value.report)
    else LastReport(hist[..|hist| - 1])
  }

  lemma {:induction false} StoredReportIsLast(engine: bool, k: Key, hist: seq<Pass>)
    requires Chain(engine, k, hist)
    ensures StatusAfter(hist).lastAnalysis == LastReport(hist)
  {
    hide Decide, WellRead;
    if hist == [] {
    } else {
      ChainPrefix(engine, k, hist);
      StoredReportIsLast(engine, k, hist[..|hist| - 1]);
    }
  }

  // ---- Which Canaries are worked on, and when they are analysed ----

  predicate Paused(c: Canary) {
    "kanary.io/paused" in c.annotations && c.annotations["kanary.io/paused"] == "true"
  }

  predicate Disabled(c: Canary) {
    "kanary.io/canary-enabled" in c.annotations && c.annotations["kanary.io/canary-enabled"] == "false"
  }

  predicate HasRouter(c: Canary) {
    c.spec.traffic.provider == Nginx || c.spec.traffic.provider == OpenShiftRoute
  }

  /** What the pass at work has read lets it work. */
  ghost predicate MayWork(engine: bool, p: Pass) {
    && !Paused(p.c) && !Disabled(p.c) && HasRouter(p.c)
    && (p.analysis.Some? <==>
          && p.c.spec.strategy.mode == Progressive && p.c.spec.analysis.enabled && engine
          && p.c.status.phase == Analyzing)
  }

  lemma BegunMayWork(engine: bool, c: Canary, w: World, p: Pass)
    requires MayBegin(engine, c, w, p)
    ensures MayWork(engine, p)
  {
  }

  lemma MayWorkLasts(engine: bool, k: Key, s: Sys, s': Sys)
    requires Next(engine, k, s, s') && (s.run.Some? ==> MayWork(engine, s.run.value.p))
    ensures s'.run.Some? ==> MayWork(engine, s'.run.value.p)
  {
    hide MayWork, MayBegin, Apply, Plan, EnvironmentChange;
    if Starts(engine, k, s, s') {
      BegunMayWork(engine, s.seen.value, s.w, s'.run.value.p);
    }
  }

  /** In every run: the Canary of a pass at work was read neither paused nor disabled, and with a router;
      the pass has analysed if and only if it read a progressive rollout that is being analysed. */
  lemma {:induction false} OnlyWorksWhenAllowed(engine: bool, k: Key, tr: seq<Sys>, i: nat)
    requires IsRun(engine, k, tr) && i < |tr| && tr[i].run.Some?
    ensures MayWork(engine, tr[i].run.value.p)
  {
    hide Next, MayWork;
    if i == 0 {
    } else {
      if tr[i - 1].run.Some? {
        OnlyWorksWhenAllowed(engine, k, tr, i - 1);
      }
      MayWorkLasts(engine, k, tr[i - 1], tr[i]);
    }
  }

  /** A pass begins exactly on a Canary that is there, neither paused nor disabled, with a target and a
      router, and, if it is to be analysed, with an answer to every query. */
  lemma WhenAPassBegins(engine: bool, w: World, k: Key, replies: nat -> Analysis.Reply)
    ensures Begin(engine, w, k, replies).Some? <==>
      && k in w.canaries
      && var c := w.canaries[k];
      && !Paused(c) && !Disabled(c) && HasRouter(c)
      && Key(k.ns, c.spec.target.name) in w.deployments
      && (c.spec.strategy.mode == Progressive && c.spec.analysis.enabled && engine && c.status.phase == Analyzing ==>
            forall i: nat | i < |c.spec.analysis.metrics| :: replies(i).Value?)
  {
  }

  /** A paused or disabled Canary's cluster is left as it is. */
  lemma PausedIsLeftAlone(engine: bool, w: World, k: Key, replies: nat -> Analysis.Reply)
    requires k in w.canaries && (Paused(w.canaries[k]) || Disabled(w.canaries[k]))
    ensures QuietPass(engine, w, k, replies) == w
  {
    WhenAPassBegins(engine, w, k, replies);
  }

  // ---- Revisions ----

  /** The revision is the one the Deployment controller has annotated; failing that, it tells the
      generations of the target apart. */
  lemma RevisionIsAnnotated(d: Deployment)
    ensures "deployment.kubernetes.io/revision" in d.annotations && d.annotations["deployment.kubernetes.io/revision"] != "" ==>
      Revision(d) == d.annotations["deployment.kubernetes.io/revision"]
  {
  }

  lemma GenerationsAreToldApart(d: Deployment, d': Deployment)
    requires "deployment.kubernetes.io/revision" !in d.annotations && "deployment.kubernetes.io/revision" !in d'.annotations
    requires Decimal.MIN_INT64 <= d.generation <= Decimal.MAX_INT64 && Decimal.MIN_INT64 <= d'.generation <= Decimal.MAX_INT64
    ensures Revision(d) == Revision(d') <==> d.generation == d'.generation
  {
    Decimal.ParseIntRoundTrip(d.generation, Decimal.MIN_INT64, Decimal.MAX_INT64);
    Decimal.ParseIntRoundTrip(d'.generation, Decimal.MIN_INT64, Decimal.MAX_INT64);
    assert Revision(d)[4..] == Decimal.Itoa(d.generation) && Revision(d')[4..] == Decimal.Itoa(d'.generation);
  }
}
