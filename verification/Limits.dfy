/** Where stronger claims one might expect do not hold, and exactly when they do. */
module Limits {
  import opened Api
  import opened Rollout
  import opened Passes
  import opened Leftovers
  import opened Progress
  import opened Ledger
  import Analysis
  import Controller
  import NginxRouter
  import Traffic

  /** A pass without set-up or teardown writes to its Canary only. */
  lemma {:induction false} NoBodyNoObjects(p: Pass, n: nat, w: World)
    requires Body(p) == []
    ensures var w' := RunFrom(p, n, w);
      && w'.deployments == w.deployments && w'.services == w.services
      && w'.ingresses == w.ingresses && w'.routes == w.routes
    decreases |Plan(p)| - n
  {
    if n >= |Plan(p)| || Apply(Plan(p)[n], p, w).Err? {
    } else {
      PlanShape(p, n);
      WriteTouchesOneKind(Plan(p)[n], p, w, Apply(Plan(p)[n], p, w).value);
      NoBodyNoObjects(p, n + 1, Apply(Plan(p)[n], p, w).value);
    }
  }

  lemma NoBodyStoresStatus(p: Pass, w: World)
    requires Body(p) == [] && p.key in w.canaries
    ensures p.key in RunFrom(p, 0, w).canaries && RunFrom(p, 0, w).canaries[p.key].status == NextStatus(p)
  {
    if PromoteRequested(p.c) || AbortRequested(p.c) {
      assert Plan(p) == [ClearCommands, PersistStatus];
      var w1 := Apply(ClearCommands, p, w).value;
      assert RunFrom(p, 0, w) == RunFrom(p, 1, w1);
      assert RunFrom(p, 1, w1) == RunFrom(p, 2, Apply(PersistStatus, p, w1).value);
    } else {
      assert Plan(p) == [PersistStatus];
      assert RunFrom(p, 0, w) == RunFrom(p, 1, Apply(PersistStatus, p, w).value);
    }
  }

  // ---- "The stored weight is the live weight" ----

  /** False while analysing: such a pass stores the weight of its step and routes nothing. When the two
      agree along a rollout is the subject of `Exposure.StoredWeightIsLiveFromStepOne`. */
  lemma AnalyzingDoesNotRoute(p: Pass, w: World)
    requires NextStatus(p).phase.Analyzing? && p.key in w.canaries
    ensures p.key in RunFrom(p, 0, w).canaries && 0 <= p.c.status.index < |Steps(p.c)|
    ensures RunFrom(p, 0, w).canaries[p.key].status.weight == Steps(p.c)[p.c.status.index]
    ensures Traffic.Live(RunFrom(p, 0, w), p.key, p.c) == Traffic.Live(w, p.key, p.c)
  {
    NoBodyNoObjects(p, 0, w);
    NoBodyStoresStatus(p, w);
  }

  /** In particular the first step of a progressive rollout is analysed without any canary: no
      traffic, no Deployment, no Service. */
  lemma FirstStepHasNoCanary(w: World, k: Key, replies: nat -> Analysis.Reply)
    requires RollingIn(w, k) && NoQueryFails(replies) && Clean(w, k, w.canaries[k])
    requires !w.canaries[k].status.phase.Analyzing?
    ensures var w' := QuietPass(true, w, k, replies);
      && k in w'.canaries && w'.canaries[k].status.phase.Analyzing?
      && w'.canaries[k].status.weight == Steps(w.canaries[k])[w.canaries[k].status.index]
      && Clean(w', k, w'.canaries[k]) && Traffic.Live(w', k, w'.canaries[k]) == 0
  {
    var p := PassOfRollout(w, k, replies);
    AnalyzingDoesNotRoute(p, w);
    NoBodyNoObjects(p, 0, w);
  }

  // ---- "Idle means no canary traffic": see `Leftovers.RestIsCleanUnlessCanaryNamed` ----

  /** A pass that rests writes to its Canary only. */
  lemma RestingPassTouchesNothing(p: Pass, w: World)
    requires Rests(p) && p.key in w.canaries
    ensures p.key in RunFrom(p, 0, w).canaries
    ensures RunFrom(p, 0, w).canaries[p.key].status == NextStatus(p)
    ensures Traffic.Live(RunFrom(p, 0, w), p.key, p.c) == Traffic.Live(w, p.key, p.c)
    ensures Clean(RunFrom(p, 0, w), p.key, p.c) <==> Clean(w, p.key, p.c)
  {
    NoBodyNoObjects(p, 0, w);
    NoBodyStoresStatus(p, w);
  }

  // ---- "The rollout rolls back as soon as the failure count reaches its limit" ----

  /** False: the pass looks at the count stored before it. Of the passes whose analysis fails,
      those roll back that bring the count to the limit plus two, or beyond. */
  lemma RollbackIsLate(p: Pass)
    requires Rolling(p.c, p.t) && p.c.status.phase.Analyzing?
    requires p.analysis.Some? && Analysis.ResultFor(p.c, p.analysis.value) && !p.analysis.value.passed
    ensures Decide(p).verb.Rollback? <==> NextStatus(p).failedChecks >= Analysis.MaxFailedChecks(p.c) + 2
    ensures Decide(p).verb.Rollback? || Decide(p) == Decision(Hold, Analyzing, Steps(p.c)[p.c.status.index])
  {
  }

  /** A limit of 1, and a first failure: the count reaches the limit and the rollout goes on. */
  lemma LimitReachedWithoutRollback() returns (p: Pass)
    ensures Rolling(p.c, p.t) && p.c.status.phase.Analyzing?
    ensures p.analysis.Some? && Analysis.ResultFor(p.c, p.analysis.value) && !p.analysis.value.passed
    ensures NextStatus(p).failedChecks == Analysis.MaxFailedChecks(p.c) && !EndsRollout(p)
  {
    var check := MetricCheck("errors", "rate", None, Some(0.5));
    var c := Canary(
      CanarySpec(TargetRef("Deployment", "apps/v1", "web"), ServiceSpec(80, ""), TrafficProvider(Nginx, Some("web"), None),
                 Strategy(Progressive, [100], 0, 1), AnalysisConfig(true, "prometheus", [check])),
      map[],
      Status(Analyzing, 0, 100, "1", "", 0, None));
    var t := Deployment(map[], map[REVISION_ANNOTATION := "2"], None, 1,
                        DeploymentSpec(None, None, PodTemplate(map[], ""), ""));
    p := Pass(Key("prod", "web"), c, t, Some(AnalysisResult(false, 1, [Analysis.Entry(check, 1.0)])));
    assert p.analysis.value.report[0] == Analysis.Entry(check, 1.0);
    assert !Analysis.Within(p.analysis.value.report[0].value, check);
  }

  // ---- "The failure count starts over with each rollout" ----

  /** False: a rollout that starts with more failures than its limit is over after its first analysis,
      with its second pass, whatever the metrics say. */
  lemma InheritedFailuresEndRollout(w: World, k: Key, replies: nat -> nat -> Analysis.Reply)
    requires RollingIn(w, k) && NoQueryFails(replies(0)) && NoQueryFails(replies(1))
    requires !w.canaries[k].status.phase.Analyzing?
    requires w.canaries[k].status.failedChecks > Analysis.MaxFailedChecks(w.canaries[k])
    ensures PhaseAfter(w, k, replies, 1, Analyzing) && PhaseAfter(w, k, replies, 2, RolledBack)
  {
    hide Writable, RunFrom, QuietPass;
    var p := PassOfRollout(w, k, replies(0));
    PassMovesRollout(w, k, replies(0));
    var w1 := QuietPass(true, w, k, replies(0));
    assert Drive(w, k, replies, 0) == w && Drive(w, k, replies, 1) == w1;
    var q := PassOfRollout(w1, k, replies(1));
    assert Drive(w, k, replies, 2) == QuietPass(true, w1, k, replies(1));
  }

  /** For example, after a rollback that left a count of 3 at a limit of 1: the next revision is rolled
      back although every metric of it lies within its thresholds. */
  lemma HealthyRevisionIsRolledBack() returns (w: World, k: Key, replies: nat -> nat -> Analysis.Reply)
    ensures RollingIn(w, k) && w.canaries[k].status.phase.RolledBack? && w.canaries[k].status.failedChecks == 3
    ensures Analysis.MaxFailedChecks(w.canaries[k]) == 1 && Healthy(w.canaries[k], replies)
    ensures PhaseAfter(w, k, replies, 1, Analyzing) && PhaseAfter(w, k, replies, 2, RolledBack)
  {
    k := Key("prod", "web");
    var check := MetricCheck("errors", "rate", None, Some(0.5));
    var c := Canary(
      CanarySpec(TargetRef("Deployment", "apps/v1", "web"), ServiceSpec(80, ""), TrafficProvider(Nginx, Some("web"), None),
                 Strategy(Progressive, [100], 0, 1), AnalysisConfig(true, "prometheus", [check])),
      map[],
      Status(RolledBack, 0, 0, "2", "", 3, None));
    var t := Deployment(map[], map[REVISION_ANNOTATION := "3"], None, 1,
                        DeploymentSpec(None, None, PodTemplate(map[], ""), ""));
    w := World(map[k := c], map[TargetKey(k, c) := t], map[],
               map[NginxRouter.StableKey(k, c) := Ingress(map[], map[], None, IngressSpec(None, [], ""))], map[]);
    replies := (pass: nat) => (query: nat) => Analysis.Value(0.0);
    assert Rolling(c, t);
    InheritedFailuresEndRollout(w, k, replies);
  }

  // ---- "A promote command moves the rollout" ----

  /** Every pass that is carried out to its end with a command on its Canary takes it off, promote and
      abort alike, whether or not it made a move (`Ledger.CommandMovesLiveRollouts` says when it did).
      Left on, an abort would roll back every revision to come. */
  lemma CommandIsSpent(cmd: Command, p: Pass, w: World, w': World)
    requires Requested(cmd, p.c) && p.key in w.canaries && Exec(p, |Plan(p)|, w) == Ok(w')
    ensures p.key in w'.canaries && !Requested(cmd, w'.canaries[p.key])
    ensures w'.canaries[p.key].status == NextStatus(p)
    ensures !Moves(p) ==> w'.canaries[p.key].status.index == if EndsRollout(p) then 0 else p.c.status.index
  {
    hide Apply, Decide, NextStatus, Body;
    var n := |Body(p)|;
    assert |Plan(p)| == n + 2 && Plan(p)[n] == ClearCommands && Plan(p)[n + 1] == PersistStatus;
    var w1 := Exec(p, n, w).value;
    Controller.BodyKeepsCanaries(p, w, n);
    var w2 := Exec(p, n + 1, w).value;
    WritesToCanaries(ClearCommands, p, w1, w2);
    WritesToCanaries(PersistStatus, p, w2, w');
    if !Moves(p) {
      IndexAfterNoMove(p);
    }
  }

  lemma IndexAfterNoMove(p: Pass)
    requires !Moves(p)
    ensures NextStatus(p).index == if EndsRollout(p) then 0 else p.c.status.index
  {
  }

  /** A pass at the stable revision spends the command and changes nothing else but its own status. */
  lemma CommandAtStableRevision(p: Pass, w: World)
    requires PromoteRequested(p.c) && !AbortRequested(p.c) && !Live(p) && p.key in w.canaries
    ensures var w' := RunFrom(p, 0, w);
      && p.key in w'.canaries && !PromoteRequested(w'.canaries[p.key])
      && w'.canaries[p.key].status == NextStatus(p) && NextStatus(p).index == p.c.status.index && !Moves(p)
      && w'.deployments == w.deployments && w'.services == w.services
      && w'.ingresses == w.ingresses && w'.routes == w.routes
  {
    NoBodyNoObjects(p, 0, w);
    assert Plan(p) == [ClearCommands, PersistStatus];
    var w1 := Apply(ClearCommands, p, w).value;
    var w2 := Apply(PersistStatus, p, w1).value;
    assert RunFrom(p, 0, w) == RunFrom(p, 1, w1);
    assert RunFrom(p, 1, w1) == RunFrom(p, 2, w2);
    WritesToCanaries(ClearCommands, p, w, w1);
    WritesToCanaries(PersistStatus, p, w1, w2);
  }

  /** For example, on a Canary whose rollout has succeeded: the command is gone, and nothing has moved. */
  lemma CommandSpentOnNothing(replies: nat -> Analysis.Reply) returns (w: World, k: Key)
    ensures k in w.canaries && PromoteRequested(w.canaries[k]) && w.canaries[k].status.phase.Succeeded?
    ensures var w' := QuietPass(false, w, k, replies);
      && k in w'.canaries && !PromoteRequested(w'.canaries[k]) && w'.canaries[k].status == w.canaries[k].status
  {
    k := Key("prod", "web");
    var c := Canary(
      CanarySpec(TargetRef("Deployment", "apps/v1", "web"), ServiceSpec(80, ""), TrafficProvider(Nginx, Some("web"), None),
                 Strategy(Manual, [10, 100], 0, 2), AnalysisConfig(false, "", [])),
      map[PROMOTE := "true"],
      Status(Succeeded, 0, 0, "1", "", 0, None));
    var t := Deployment(map[], map[REVISION_ANNOTATION := "1"], None, 1,
                        DeploymentSpec(None, None, PodTemplate(map[], ""), ""));
    w := World(map[k := c], map[TargetKey(k, c) := t], map[], map[], map[]);
    var p := Pass(k, c, t, None);
    assert PROMOTE != ABORT && PROMOTE != PAUSED && PROMOTE != CANARY_ENABLED;
    assert Begin(false, w, k, replies) == Some(p);
    assert Decide(p) == Decision(Hold, Succeeded, 0);
    CommandAtStableRevision(p, w);
  }

  // ---- "Clearing the commands leaves the other annotations" ----

  /** True of the annotations the pass had read. One that was added since then stays if and only if the
      pass had read some other annotation beside the commands. */
  lemma LateAnnotationIsLost(read: Labels, stored: Labels, key: string)
    requires key in stored && key != PROMOTE && key != ABORT
    ensures key in read ==> key in Cleared(read, stored)
    ensures key !in read ==> (key in Cleared(read, stored) <==> exists other :: other in read && other != PROMOTE && other != ABORT)
  {
  }

  // ---- "Traffic is only sent to a canary that exists" ----

  /** On set-up the router is written first: until the next writes succeed it sends traffic to a
      Service that does not exist, and does so exactly if the Service was missing before the pass. */
  lemma RoutedBeforeWorkload(p: Pass, w: World, w': World)
    requires SetsUp(p) && Exec(p, 1, w) == Ok(w')
    ensures Traffic.Routed(w', p.key, p.c, Decide(p).weight)
    ensures CanaryKey(p.key, p.c) in w'.services <==> CanaryKey(p.key, p.c) in w.services
  {
    PlanShape(p, 0);
    assert Exec(p, 0, w) == Ok(w);
    WriteEstablishes(p, 0, w, w');
    WriteTouchesOneKind(RouteTraffic, p, w, w');
  }
}
