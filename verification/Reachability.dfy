/** States that runs do reach: what no theorem about all runs can exclude. */
module Reachability {
  import opened Api
  import opened Rollout
  import opened Passes
  import opened Runs
  import opened Progress
  import opened Refinement
  import opened Limits
  import opened Exposure
  import Analysis
  import Controller
  import NginxRouter
  import Traffic
  import Workload

  ghost predicate Reachable(engine: bool, k: Key, s: Sys) {
    exists tr: seq<Sys> :: IsRun(engine, k, tr) && tr[|tr| - 1] == s
  }

  lemma InitIsReachable(engine: bool, k: Key, s: Sys)
    requires Init(k, s)
    ensures Reachable(engine, k, s)
  {
    assert IsRun(engine, k, [s]);
  }

  lemma RunIsContinued(engine: bool, k: Key, tr: seq<Sys>, more: seq<Sys>)
    requires IsRun(engine, k, tr) && |more| > 0 && more[0] == tr[|tr| - 1]
    requires forall i: nat | i + 1 < |more| :: Next(engine, k, more[i], more[i + 1])
    ensures IsRun(engine, k, tr + more[1..]) && (tr + more[1..])[|tr + more[1..]| - 1] == more[|more| - 1]
  {
    var longer := tr + more[1..];
    forall i: nat | i + 1 < |longer|
      ensures Next(engine, k, longer[i], longer[i + 1])
    {
      if i + 1 < |tr| {
        assert Next(engine, k, tr[i], tr[i + 1]);
      } else {
        var j := i + 1 - |tr|;
        assert longer[i] == more[j] && longer[i + 1] == more[j + 1];
      }
    }
  }

  lemma StepIsReachable(engine: bool, k: Key, s: Sys, s': Sys)
    requires Reachable(engine, k, s) && Next(engine, k, s, s')
    ensures Reachable(engine, k, s')
  {
    var tr: seq<Sys> :| IsRun(engine, k, tr) && tr[|tr| - 1] == s;
    RunIsContinued(engine, k, tr, [s, s']);
  }

  lemma {:induction false} RunStopsSomewhere(p: Pass, before: World, n: nat, now: World) returns (m: nat)
    requires Controller.Reached(p, before, n, now)
    ensures Controller.Reached(p, before, m, RunFrom(p, n, now))
    decreases |Plan(p)| - n
  {
    if n < |Plan(p)| && Apply(Plan(p)[n], p, now).Ok? {
      m := RunStopsSomewhere(p, before, n + 1, Apply(Plan(p)[n], p, now).value);
    } else {
      m := n;
    }
  }

  /** A pass without faults is part of a run: what is proved of rows of such passes happens in runs. */
  lemma QuietPassIsReachable(engine: bool, k: Key, s: Sys, replies: nat -> Analysis.Reply) returns (s': Sys)
    requires Reachable(engine, k, s) && s.seen.None? && s.run.None?
    ensures Reachable(engine, k, s') && s'.seen.None? && s'.run.None?
    ensures s'.w == QuietPass(engine, s.w, k, replies)
  {
    hide Next, Apply, Plan, Decide, Skipped;
    var begun := Begin(engine, s.w, k, replies);
    if begun.None? {
      s' := s;
    } else {
      var p := begun.value;
      var n := RunStopsSomewhere(p, s.w, 0, s.w);
      var more := ReconcileIsARun(engine, k, s, p, n, RunFrom(p, 0, s.w));
      var tr: seq<Sys> :| IsRun(engine, k, tr) && tr[|tr| - 1] == s;
      RunIsContinued(engine, k, tr, more);
      s' := more[|more| - 1];
    }
  }

  /** The environment may put another Deployment in the target's place. */
  lemma BumpIsReachable(engine: bool, k: Key, s: Sys, t: Deployment) returns (s': Sys)
    requires Reachable(engine, k, s) && s.seen.None? && s.run.None? && k in s.w.canaries
    ensures Reachable(engine, k, s') && s' == s.(w := Bumped(s.w, k, t))
  {
    hide Reachable;
    s' := s.(w := Bumped(s.w, k, t));
    assert |CanaryKey(k, Own(k, s)).name| == |TargetKey(k, Own(k, s)).name| + 7;
    assert Disturbs(k, s, s');
    StepIsReachable(engine, k, s, s');
  }

  // ---- "Idle means no canary traffic" ----

  /** Everything a pass needs is on the cluster, and no command. */
  ghost predicate Ready(w: World, k: Key) {
    && k in w.canaries && TargetKey(k, w.canaries[k]) in w.deployments
    && Writable(Now(w, k), w)
    && !Skipped(w.canaries[k]) && !PromoteRequested(w.canaries[k]) && !AbortRequested(w.canaries[k])
  }

  /** A manual rollout could be run. */
  ghost predicate ManualIn(w: World, k: Key) {
    Ready(w, k) && w.canaries[k].spec.strategy.mode.Manual? && Steps(w.canaries[k]) != []
  }

  /** `w'` is `w` after a pass, which has stored its status. */
  ghost predicate PassLeads(w: World, w': World, k: Key)
    requires Ready(w, k)
  {
    var p := Now(w, k);
    w' == RunFrom(p, 0, w) && Ready(w', k) && Now(w', k) == p.(c := p.c.(status := NextStatus(p)))
  }

  lemma ReadyPass(engine: bool, w: World, k: Key, replies: nat -> Analysis.Reply)
    requires Ready(w, k) && !Analyses(engine, w.canaries[k])
    ensures PassLeads(w, QuietPass(engine, w, k, replies), k)
  {
    var p := Now(w, k);
    assert Begin(engine, w, k, replies) == Some(p);
    PassCompletes(p, 0, w);
    StillWritable(p, p.(c := p.c.(status := NextStatus(p))), RunFrom(p, 0, w));
  }

  lemma ReadyAfterBump(w: World, k: Key, t: Deployment)
    requires Ready(w, k) && !Workload.SelectorIsNilMap(t)
    ensures Ready(Bumped(w, k, t), k) && Bumped(w, k, t).canaries == w.canaries
    ensures Now(Bumped(w, k, t), k) == Now(w, k).(t := t)
    ensures Traffic.Live(Bumped(w, k, t), k, w.canaries[k]) == Traffic.Live(w, k, w.canaries[k])
  {
    assert Steps(Now(w, k).c) == Steps(Now(Bumped(w, k, t), k).c);
  }

  lemma FirstSetUpRoutes(w: World, w': World, k: Key)
    requires ManualIn(w, k) && PassLeads(w, w', k)
    requires SetsUp(Now(w, k)) && Now(w, k).c.status.index == 0
    ensures Traffic.Live(w', k, w'.canaries[k]) == Traffic.Observed(w'.canaries[k], Steps(w'.canaries[k])[0])
    ensures w'.canaries[k].status.stable == Now(w, k).c.status.stable && !w'.canaries[k].status.phase.Succeeded?
    ensures !w'.canaries[k].status.phase.RolledBack?
  {
    var p := Now(w, k);
    AdvanceDeploys(p, w);
    Traffic.RoutedShows(w', k, p.c, Steps(p.c)[0]);
    SameRefsShowTheSame(w', k, p.c, w'.canaries[k]);
  }

  lemma RestingPassLeavesTraffic(w: World, w': World, k: Key)
    requires ManualIn(w, k) && PassLeads(w, w', k) && Now(w, k).c.status.stable == Revision(Now(w, k).t)
    requires !Now(w, k).c.status.phase.Succeeded? && !Now(w, k).c.status.phase.RolledBack?
    ensures w'.canaries[k].status.phase.Idle?
    ensures Traffic.Live(w', k, w'.canaries[k]) == Traffic.Live(w, k, w.canaries[k])
  {
    RestingPassTouchesNothing(Now(w, k), w);
    SameRefsShowTheSame(w', k, w.canaries[k], w'.canaries[k]);
  }

  lemma FirstPassSeeds(w: World, w': World, k: Key)
    requires Ready(w, k) && Steps(w.canaries[k]) != [] && PassLeads(w, w', k) && w.canaries[k].status == ZERO_STATUS
    ensures w'.canaries[k].status.stable == Revision(Now(w, k).t) && w'.canaries[k].status.index == 0
  {
  }

  /** Step 0 of a rollout is set up, and gets its share. */
  ghost predicate FirstStepIsLive(k: Key, stable: string, s: Sys) {
    && s.seen.None? && s.run.None? && ManualIn(s.w, k)
    && Own(k, s).status.stable == stable
    && !Own(k, s).status.phase.Succeeded? && !Own(k, s).status.phase.RolledBack?
    && Traffic.Live(s.w, k, Own(k, s)) == Traffic.Observed(Own(k, s), Steps(Own(k, s))[0])
  }

  lemma SeededIsReachable(k: Key, s: Sys, replies: nat -> Analysis.Reply) returns (seeded: Sys)
    requires Init(k, s) && ManualIn(s.w, k)
    ensures Reachable(false, k, seeded) && seeded.seen.None? && seeded.run.None? && ManualIn(seeded.w, k)
    ensures Now(seeded.w, k).t == Now(s.w, k).t && Own(k, seeded).spec == Own(k, s).spec
    ensures Own(k, seeded).status.stable == Revision(Now(s.w, k).t) && Own(k, seeded).status.index == 0
  {
    InitIsReachable(false, k, s);
    ReadyPass(false, s.w, k, replies);
    seeded := QuietPassIsReachable(false, k, s, replies);
    FirstPassSeeds(s.w, seeded.w, k);
  }

  lemma FirstStepIsReachable(k: Key, s: Sys, t: Deployment, replies: nat -> Analysis.Reply) returns (setUp: Sys)
    requires Reachable(false, k, s) && s.seen.None? && s.run.None? && ManualIn(s.w, k)
    requires Own(k, s).status.index == 0 && Own(k, s).status.stable != "" && Own(k, s).status.stable != Revision(t)
    requires !Workload.SelectorIsNilMap(t)
    ensures Reachable(false, k, setUp) && FirstStepIsLive(k, Own(k, s).status.stable, setUp)
    ensures Own(k, setUp).spec == Own(k, s).spec
  {
    hide Reachable, Writable, RunFrom, QuietPass, Traffic.Live, Traffic.Observed, NextStatus, Begin;
    var bumped := BumpIsReachable(false, k, s, t);
    ReadyAfterBump(s.w, k, t);
    ReadyPass(false, bumped.w, k, replies);
    setUp := QuietPassIsReachable(false, k, bumped, replies);
    FirstSetUpRoutes(bumped.w, setUp.w, k);
  }

  lemma PuttingBackIsReachable(k: Key, s: Sys, t: Deployment, replies: nat -> Analysis.Reply) returns (end: Sys)
    requires Reachable(false, k, s) && FirstStepIsLive(k, Revision(t), s) && !Workload.SelectorIsNilMap(t)
    ensures Reachable(false, k, end) && end.run.None? && ManualIn(end.w, k)
    ensures Own(k, end).spec == Own(k, s).spec && Own(k, end).status.phase.Idle?
    ensures Traffic.Live(end.w, k, Own(k, end)) == Traffic.Observed(Own(k, end), Steps(Own(k, end))[0])
  {
    hide Reachable, Writable, RunFrom, QuietPass, Traffic.Live, Traffic.Observed, NextStatus, Begin;
    var back := BumpIsReachable(false, k, s, t);
    ReadyAfterBump(s.w, k, t);
    ReadyPass(false, back.w, k, replies);
    end := QuietPassIsReachable(false, k, back, replies);
    RestingPassLeavesTraffic(back.w, end.w, k);
    SameRefsObserveTheSame(Own(k, s), Own(k, end), Steps(Own(k, end))[0]);
  }

  /** From any start in Manual mode: the target is changed, a pass sets step 0 up, the target is put
      back, and the next pass stores Idle with the weight of step 0 still live. */
  lemma IdleWithLiveTrafficIsReachable(k: Key, s: Sys, t: Deployment, replies: nat -> Analysis.Reply) returns (end: Sys)
    requires Init(k, s) && ManualIn(s.w, k)
    requires Revision(t) != Revision(Now(s.w, k).t) && !Workload.SelectorIsNilMap(t)
    ensures Reachable(false, k, end) && end.run.None? && ManualIn(end.w, k)
    ensures Own(k, end).spec == Own(k, s).spec && Own(k, end).status.phase.Idle?
    ensures Traffic.Live(end.w, k, Own(k, end)) == Traffic.Observed(Own(k, end), Steps(Own(k, end))[0])
  {
    var first := Now(s.w, k).t;
    assert !Workload.SelectorIsNilMap(first);
    var seeded := SeededIsReachable(k, s, replies);
    var setUp := FirstStepIsReachable(k, seeded, t, replies);
    end := PuttingBackIsReachable(k, setUp, first, replies);
  }

  lemma SameRefsObserveTheSame(c: Canary, c': Canary, weight: int)
    requires SameRefs(c, c')
    ensures Traffic.Observed(c, weight) == Traffic.Observed(c', weight)
  {
  }

  // ---- "What is promoted has been analysed" ----

  lemma {:induction false} DriveIsReachable(k: Key, s: Sys, replies: nat -> nat -> Analysis.Reply, n: nat) returns (s': Sys)
    requires Reachable(true, k, s) && s.seen.None? && s.run.None?
    ensures Reachable(true, k, s') && s'.seen.None? && s'.run.None? && s'.w == Drive(s.w, k, replies, n)
  {
    hide Reachable, QuietPass;
    if n == 0 {
      s' := s;
    } else {
      var before := DriveIsReachable(k, s, replies, n - 1);
      s' := QuietPassIsReachable(true, k, before, replies(n - 1));
    }
  }

  /** A progressive rollout can be run on the cluster. */
  ghost predicate ProgressiveIn(w: World, k: Key) {
    && Ready(w, k) && Steps(w.canaries[k]) != []
    && w.canaries[k].spec.strategy.mode.Progressive? && w.canaries[k].spec.analysis.enabled
  }

  lemma SeedingLeavesClean(w: World, w': World, k: Key)
    requires ProgressiveIn(w, k) && PassLeads(w, w', k)
    requires w.canaries[k].status == ZERO_STATUS && Clean(w, k, w.canaries[k])
    ensures Clean(w', k, w'.canaries[k]) && ProgressiveIn(w', k)
    ensures var st := w'.canaries[k].status;
      && st.stable == Revision(Now(w, k).t) && st.index == 0 && st.failedChecks == 0 && !st.phase.Analyzing?
  {
    var p := Now(w, k);
    assert Body(p) == [];
    NoBodyNoObjects(p, 0, w);
  }

  lemma BumpBeginsRollout(w: World, k: Key, t: Deployment)
    requires ProgressiveIn(w, k) && Clean(w, k, w.canaries[k]) && !Workload.SelectorIsNilMap(t)
    requires var st := w.canaries[k].status;
      st.stable != "" && st.stable != Revision(t) && st.index == 0 && st.failedChecks == 0 && !st.phase.Analyzing?
    ensures AboutToBegin(Bumped(w, k, t), k) && Bumped(w, k, t).canaries == w.canaries
    ensures Now(Bumped(w, k, t), k).t == t
  {
    ReadyAfterBump(w, k, t);
    assert |CanaryKey(k, w.canaries[k]).name| == |TargetKey(k, w.canaries[k]).name| + 7;
    var v := Bumped(w, k, t);
    StillWritable(Now(v, k), Pass(k, v.canaries[k], t, None), v);
  }

  /** A rollout is reached that is about to begin, for the revision of `t`. */
  lemma RolloutIsReachable(k: Key, s: Sys, t: Deployment, replies: nat -> Analysis.Reply) returns (begun: Sys)
    requires Init(k, s) && ProgressiveIn(s.w, k)
    requires Revision(t) != Revision(Now(s.w, k).t) && !Workload.SelectorIsNilMap(t)
    ensures Reachable(true, k, begun) && begun.seen.None? && begun.run.None? && AboutToBegin(begun.w, k)
    ensures Own(k, begun).spec == Own(k, s).spec && Now(begun.w, k).t == t
    ensures Own(k, begun).status.failedChecks == 0 && Own(k, begun).status.stable == Revision(Now(s.w, k).t)
  {
    InitIsReachable(true, k, s);
    ReadyPass(true, s.w, k, replies);
    hide Reachable, RunFrom, QuietPass, NextStatus, Clean, Writable;
    var seeded := QuietPassIsReachable(true, k, s, replies);
    SeedingLeavesClean(s.w, seeded.w, k);
    BumpBeginsRollout(seeded.w, k, t);
    begun := BumpIsReachable(true, k, seeded, t);
  }

  lemma BumpAtLastAnalysisIsReachable(k: Key, s: Sys, t: Deployment, replies: nat -> Analysis.Reply)
    returns (bumped: Sys, end: Sys)
    requires Reachable(true, k, s) && s.seen.None? && s.run.None?
    requires Exposed(s.w, k) && AtLastAnalysis(s.w, k) && Own(k, s).status.index >= 1 && AllWithin(Own(k, s), replies)
    requires Revision(t) != Own(k, s).status.stable && !Workload.SelectorIsNilMap(t)
    requires Workload.CanaryDeploymentSpec(t) != Workload.CanaryDeploymentSpec(Now(s.w, k).t)
    ensures Reachable(true, k, bumped) && bumped.w == Bumped(s.w, k, t) && bumped.seen.None? && bumped.run.None?
    ensures Reachable(true, k, end) && end.run.None? && end.w == QuietPass(true, bumped.w, k, replies)
    ensures DeploymentMatches(bumped.w, Now(s.w, k)) && !DeploymentMatches(bumped.w, Now(bumped.w, k))
    ensures k in end.w.canaries && Own(k, end).status.phase.Succeeded? && Own(k, end).status.stable == Revision(t)
  {
    BumpedTargetIsPromoted(s.w, k, t, replies);
    hide Reachable, QuietPass;
    bumped := BumpIsReachable(true, k, s, t);
    end := QuietPassIsReachable(true, k, bumped, replies);
  }

  /** From any start in Progressive mode with two steps or more: the target is changed to `t`, every
      analysis passes, the target is changed to `t'` during the last of them, and the next pass
      promotes the revision of `t'`, of which nothing has ever been out. */
  lemma PromotionUnseenIsReachable(k: Key, s: Sys, t: Deployment, t': Deployment, replies: nat -> nat -> Analysis.Reply)
    returns (bumped: Sys, end: Sys)
    requires Init(k, s) && ProgressiveIn(s.w, k) && |Steps(Own(k, s))| >= 2 && Healthy(Own(k, s), replies)
    requires Revision(t) != Revision(Now(s.w, k).t) && !Workload.SelectorIsNilMap(t)
    requires Revision(t') != Revision(Now(s.w, k).t) && !Workload.SelectorIsNilMap(t')
    requires Workload.CanaryDeploymentSpec(t') != Workload.CanaryDeploymentSpec(t)
    ensures Reachable(true, k, bumped) && bumped.run.None? && k in bumped.w.canaries && Own(k, bumped).status.phase.Analyzing?
    ensures DeploymentMatches(bumped.w, Pass(k, Own(k, bumped), t, None)) && !DeploymentMatches(bumped.w, Pass(k, Own(k, bumped), t', None))
    ensures Reachable(true, k, end) && end.run.None? && k in end.w.canaries
    ensures Own(k, end).status.phase.Succeeded? && Own(k, end).status.stable == Revision(t')
  {
    var begun := RolloutIsReachable(k, s, t, replies(0));
    SameHealth(Own(k, s), Own(k, begun), replies);
    var last, n := LastAnalysisOf(k, begun, replies);
    hide Reachable, QuietPass, Exposed, RollingIn, Healthy, DeploymentMatches, Init;
    SameWithin(Own(k, s), Own(k, last), replies, n);
    bumped, end := BumpAtLastAnalysisIsReachable(k, last, t', replies(n));
  }

  lemma LastAnalysisOf(k: Key, s: Sys, replies: nat -> nat -> Analysis.Reply) returns (last: Sys, n: nat)
    requires Reachable(true, k, s) && s.seen.None? && s.run.None? && AboutToBegin(s.w, k)
    requires Own(k, s).status.failedChecks == 0 && Healthy(Own(k, s), replies)
    ensures Reachable(true, k, last) && last.seen.None? && last.run.None? && ComesToLastAnalysis(s.w, last.w, k)
  {
    hide Reachable, AboutToBegin, ComesToLastAnalysis, Healthy, Drive;
    n := LastAnalysisIsReached(s.w, k, replies);
    last := DriveIsReachable(k, s, replies, n);
  }

  lemma SameHealth(c: Canary, c': Canary, replies: nat -> nat -> Analysis.Reply)
    requires Healthy(c, replies) && c'.spec == c.spec
    ensures Healthy(c', replies)
  {
    forall n
      ensures AllWithin(c', replies(n))
    {
      SameWithin(c, c', replies, n);
    }
  }

  lemma SameWithin(c: Canary, c': Canary, replies: nat -> nat -> Analysis.Reply, n: nat)
    requires Healthy(c, replies) && c'.spec == c.spec
    ensures AllWithin(c', replies(n))
  {
    assert AllWithin(c, replies(n));
  }

  // ---- Examples ----

  const WEB: Key := Key("prod", "web")

  /** A new nginx Canary for the Deployment and the Ingress "web". */
  function WebCanary(strategy: Strategy, analysis: AnalysisConfig): Canary {
    Canary(
      CanarySpec(TargetRef("Deployment", "apps/v1", "web"), ServiceSpec(80, ""), TrafficProvider(Nginx, Some("web"), None),
                 strategy, analysis),
      map[], ZERO_STATUS)
  }

  function WebDeployment(revision: string, podSpec: string): Deployment {
    Deployment(map[], map[REVISION_ANNOTATION := revision], None, 1,
               DeploymentSpec(None, None, PodTemplate(map[], podSpec), ""))
  }

  /** A cluster with the new Canary, its target at revision 1, and its Ingress. */
  function WebCluster(c: Canary): World {
    World(map[WEB := c], map[WEB := WebDeployment("1", "v1")], map[],
          map[WEB := Ingress(map[], map[], None, IngressSpec(None, [], ""))], map[])
  }

  lemma WebStarts(strategy: Strategy, analysis: AnalysisConfig) returns (s: Sys)
    requires forall i | 0 <= i < |strategy.steps| :: 0 <= strategy.steps[i] <= 100
    ensures s.w == WebCluster(WebCanary(strategy, analysis)) && Init(WEB, s) && Ready(s.w, WEB)
    ensures Now(s.w, WEB).t == WebDeployment("1", "v1")
  {
    var c := WebCanary(strategy, analysis);
    s := Sys(WebCluster(c), None, None, [], Issued(0, 0));
    assert TargetKey(WEB, c) == WEB && NginxRouter.StableKey(WEB, c) == WEB;
    assert |CanaryKey(WEB, c).name| == |WEB.name| + 7 && |NginxRouter.SiblingKey(WEB, c).name| == |WEB.name| + 7;
  }

  /** A Canary with steps 10 and 100 ends up Idle with 10% live. */
  lemma IdleWithLiveTraffic() returns (end: Sys)
    ensures Reachable(false, WEB, end) && end.run.None? && WEB in end.w.canaries
    ensures Own(WEB, end).status.phase.Idle? && Traffic.Live(end.w, WEB, Own(WEB, end)) == 10
  {
    var s := WebStarts(Strategy(Manual, [10, 100], 0, 2), AnalysisConfig(false, "", []));
    hide Reachable, Init, Ready;
    end := IdleWithLiveTrafficIsReachable(WEB, s, WebDeployment("2", "v2"), i => Analysis.Value(0.0));
    assert Steps(Own(WEB, end)) == [10, 100];
  }

  /** A Canary with steps 50 and 100 promotes revision 3, of which no canary has run. */
  lemma PromotionUnseen() returns (bumped: Sys, end: Sys)
    ensures Reachable(true, WEB, bumped) && WEB in bumped.w.canaries && Own(WEB, bumped).status.phase.Analyzing?
    ensures DeploymentMatches(bumped.w, Pass(WEB, Own(WEB, bumped), WebDeployment("2", "v2"), None))
    ensures !DeploymentMatches(bumped.w, Pass(WEB, Own(WEB, bumped), WebDeployment("3", "v3"), None))
    ensures Reachable(true, WEB, end) && WEB in end.w.canaries
    ensures Own(WEB, end).status.phase.Succeeded? && Own(WEB, end).status.stable == "3"
  {
    var check := MetricCheck("errors", "rate", None, Some(0.5));
    var s := WebStarts(Strategy(Progressive, [50, 100], 0, 2), AnalysisConfig(true, "prometheus", [check]));
    var t, t' := WebDeployment("2", "v2"), WebDeployment("3", "v3");
    var replies: nat -> nat -> Analysis.Reply := (pass: nat) => (query: nat) => Analysis.Value(0.0);
    assert Healthy(Own(WEB, s), replies);
    assert Workload.CanaryDeploymentSpec(t').template.podSpec != Workload.CanaryDeploymentSpec(t).template.podSpec;
    hide Reachable, Init, Ready, Healthy, DeploymentMatches;
    bumped, end := PromotionUnseenIsReachable(WEB, s, t, t', replies);
  }
}
