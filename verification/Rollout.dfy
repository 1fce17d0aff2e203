/** internal/controller: what one pass of the reconciler decides, and the writes it then makes. */
module Rollout {
  import opened Api
  import Analysis
  import Decimal
  import Traffic
  import Workload

  const REVISION_ANNOTATION: string := "deployment.kubernetes.io/revision"

  function Revision(d: Deployment): (r: string)
    ensures r != ""
  {
    if Lookup(d.annotations, REVISION_ANNOTATION) != "" then d.annotations[REVISION_ANNOTATION]
    else "gen-" + Decimal.Itoa(d.generation)
  }

  // ---- The decision ----

  datatype Verb = Hold | Advance | Promote | Rollback

  datatype Decision = Decision(verb: Verb, phase: Phase, weight: int)

  /** One pass at work: the Canary and the target as it read them, and its analysis, if it ran one. */
  datatype Pass = Pass(key: Key, c: Canary, t: Deployment, analysis: Option<AnalysisResult>)

  function Steps(c: Canary): seq<int> {
    c.spec.strategy.steps
  }

  function NextStep(c: Canary): Decision
    requires 0 <= c.status.index < |Steps(c)|
  {
    if c.status.index + 1 >= |Steps(c)| then Decision(Promote, Succeeded, Steps(c)[|Steps(c)| - 1])
    else Decision(Advance, Progressing, Steps(c)[c.status.index + 1])
  }

  function Decide(p: Pass): Decision {
    var c, st, steps := p.c, p.c.status, Steps(p.c);
    if AbortRequested(c) then Decision(Rollback, RolledBack, 0)
    else if steps == [] || st.stable == "" then Decision(Hold, Idle, 0)
    else if st.stable == Revision(p.t) then
      Decision(Hold, if st.phase.Succeeded? || st.phase.RolledBack? then st.phase else Idle, 0)
    else if st.index < 0 || st.index >= |steps| then Decision(Rollback, Failed, 0)
    else match c.spec.strategy.mode
      case Progressive =>
        if PromoteRequested(c) then NextStep(c)
        else if !st.phase.Analyzing? || p.analysis.None? then Decision(Hold, Analyzing, steps[st.index])
        else if Analysis.ShouldRollback(c) then Decision(Rollback, RolledBack, 0)
        else if !p.analysis.value.passed then Decision(Hold, Analyzing, steps[st.index])
        else NextStep(c)
      case NoMode | Manual =>
        if PromoteRequested(c) then NextStep(c) else Decision(Hold, AwaitingPromotion, steps[st.index])
      case OtherMode(_) => Decision(Hold, Idle, 0)
  }

  predicate EndsRollout(p: Pass) {
    Decide(p).verb.Promote? || Decide(p).verb.Rollback?
  }

  predicate SetsUp(p: Pass) {
    Decide(p).phase.Progressing? || Decide(p).phase.AwaitingPromotion?
  }

  function NextStatus(p: Pass): Status {
    var d, st := Decide(p), p.c.status;
    var rev := Revision(p.t);
    Status(
      d.phase,
      if EndsRollout(p) then 0 else if d.verb.Advance? then st.index + 1 else st.index,
      d.weight,
      if EndsRollout(p) || st.stable == "" then rev else st.stable,
      if EndsRollout(p) then "" else if SetsUp(p) then rev else st.canary,
      if p.analysis.Some? then p.analysis.value.failedChecks else st.failedChecks,
      if p.analysis.Some? then Some(p.analysis.value.report) else st.lastAnalysis)
  }

  // ---- The writes ----

  datatype Effect =
    | RouteTraffic | EnsureDeployment | EnsureStableService | EnsureCanaryService
    | ResetTraffic | DeleteDeployment | DeleteService
    | ClearCommands | PersistStatus

  /** The writes of a pass, in the order it makes them. */
  function Plan(p: Pass): seq<Effect> {
    Body(p) + (if PromoteRequested(p.c) || AbortRequested(p.c) then [ClearCommands] else []) + [PersistStatus]
  }

  function Body(p: Pass): seq<Effect> {
    if EndsRollout(p) then [ResetTraffic, DeleteDeployment, DeleteService]
    else if !SetsUp(p) then []
    else if p.c.spec.service.port == 0 then [RouteTraffic, EnsureDeployment]
    else [RouteTraffic, EnsureDeployment, EnsureStableService, EnsureCanaryService]
  }

  /** What the patch that clears the commands leaves of the stored annotations, given those the
      pass had read. With nothing else read, the map it sends is nil, and takes all of them away. */
  function Cleared(read: Labels, stored: Labels): Labels {
    if read.Keys <= {PROMOTE, ABORT} then map[] else stored - {PROMOTE, ABORT} * read.Keys
  }

  /** One write on a cluster without faults, or the error the operation itself raises. */
  function Apply(e: Effect, p: Pass, w: World): Result<World> {
    match e
    case RouteTraffic => Traffic.Reconciled(w, p.key, p.c, Decide(p).weight)
    case EnsureDeployment => Workload.EnsuredDeployment(w, p.key, p.c, p.t)
    case EnsureStableService => Ok(Workload.EnsuredStableService(w, p.key, p.c, p.t))
    case EnsureCanaryService => Workload.EnsuredCanaryService(w, p.key, p.c, p.t)
    case ResetTraffic => Ok(Traffic.WasReset(w, p.key, p.c))
    case DeleteDeployment => Ok(w.(deployments := w.deployments - {CanaryKey(p.key, p.c)}))
    case DeleteService => Ok(w.(services := w.services - {CanaryKey(p.key, p.c)}))
    case ClearCommands =>
      if p.key !in w.canaries then Err(NotFound)
      else
        var c := w.canaries[p.key];
        Ok(w.(canaries := w.canaries[p.key := c.(annotations := Cleared(p.c.annotations, c.annotations))]))
    case PersistStatus =>
      if p.key !in w.canaries then Err(NotFound)
      else Ok(w.(canaries := w.canaries[p.key := w.canaries[p.key].(status := NextStatus(p))]))
  }

  /** The first `n` writes of a pass. */
  function Exec(p: Pass, n: nat, w: World): Result<World>
    requires n <= |Plan(p)|
  {
    if n == 0 then Ok(w)
    else match Exec(p, n - 1, w)
      case Err(e) => Err(e)
      case Ok(w') => Apply(Plan(p)[n - 1], p, w')
  }

  // ---- The start of a pass ----

  /** Disabled or paused by annotation. */
  predicate Skipped(c: Canary) {
    Lookup(c.annotations, CANARY_ENABLED) == "false" || Lookup(c.annotations, PAUSED) == "true"
  }

  predicate Analyses(engine: bool, c: Canary) {
    c.spec.strategy.mode.Progressive? && c.spec.analysis.enabled && engine && c.status.phase.Analyzing?
  }

  /** A pass that has read the Canary `c` may go on like this: it reads the target on `w`, and its
      analysis is one the engine could have returned. `engine` tells whether one is wired. */
  ghost predicate MayBegin(engine: bool, c: Canary, w: World, p: Pass) {
    && p.c == c && !Skipped(p.c)
    && TargetKey(p.key, p.c) in w.deployments && p.t == w.deployments[TargetKey(p.key, p.c)]
    && (p.analysis.Some? <==> Analyses(engine, p.c))
    && (p.analysis.Some? ==> Analysis.ResultFor(p.c, p.analysis.value))
    && Traffic.Supported(p.c)
  }

  /** The pass that starts on `w`, unless it ends before its first write. */
  ghost function Begin(engine: bool, w: World, k: Key, replies: nat -> Analysis.Reply): (r: Option<Pass>)
    ensures r.Some? ==> r.value.key == k && k in w.canaries && MayBegin(engine, w.canaries[k], w, r.value)
  {
    if k !in w.canaries then None
    else
      var c := w.canaries[k];
      if Skipped(c) || TargetKey(k, c) !in w.deployments || !Traffic.Supported(c) then None
      else
        var t := w.deployments[TargetKey(k, c)];
        if !Analyses(engine, c) then Some(Pass(k, c, t, None))
        else match Analysis.Evaluated(c, replies)
          case Err(_) => None
          case Ok(r) => Some(Pass(k, c, t, Some(r)))
  }

  // ---- A pass without faults ----

  /** Runs the writes from the `n`th on, and stops at the first that raises an error. */
  function RunFrom(p: Pass, n: nat, w: World): World
    decreases |Plan(p)| - n
  {
    if n >= |Plan(p)| then w
    else match Apply(Plan(p)[n], p, w)
      case Err(_) => w
      case Ok(w') => RunFrom(p, n + 1, w')
  }

  ghost function QuietPass(engine: bool, w: World, k: Key, replies: nat -> Analysis.Reply): World {
    match Begin(engine, w, k, replies)
    case None => w
    case Some(p) => RunFrom(p, 0, w)
  }
}
