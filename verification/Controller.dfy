/** internal/controller/canary_controller.go: the reconciler's own code, on an API server with faults. */
module Controller {
  import opened Api
  import opened Cluster
  import opened Rollout
  import opened Passes
  import Analysis
  import Traffic
  import Workload

  datatype Outcome = Forgotten | SkippedPass | Backoff | Failure(error: Error) | Done(phase: Phase)

  method UpdateStatus(canary: CanaryObject, p: Pass, d: Decision)
    requires canary.status == p.c.status && d == Decide(p)
    modifies canary`status
    ensures canary.status == NextStatus(p)
  {
    canary.status := canary.status.(phase := d.phase);
    canary.status := canary.status.(weight := d.weight);
    match d.verb {
      case Advance =>
        canary.status := canary.status.(index := canary.status.index + 1);
        canary.status := canary.status.(canary := Revision(p.t));
      case Hold =>
        if d.phase.AwaitingPromotion? || d.phase.Progressing? {
          canary.status := canary.status.(canary := Revision(p.t));
        }
      case Rollback | Promote =>
        canary.status := canary.status.(stable := Revision(p.t));
        canary.status := canary.status.(index := 0);
        canary.status := canary.status.(canary := "");
    }
    if canary.status.stable == "" {
      canary.status := canary.status.(stable := Revision(p.t));
    }
    if p.analysis.Some? {
      canary.status := canary.status.(failedChecks := p.analysis.value.failedChecks);
      canary.status := canary.status.(lastAnalysis := Some(p.analysis.value.report));
    }
  }

  method ClearCommandAnnotations(canary: CanaryObject)
    modifies canary`annotations
    ensures canary.annotations == old(canary.annotations) - {PROMOTE, ABORT}
  {
    if |canary.annotations| == 0 {
      return;
    }
    canary.annotations := canary.annotations - {PROMOTE};
    canary.annotations := canary.annotations - {ABORT};
  }

  /** What a merge patch from `read` to `wanted`, which only lost keys, makes of the stored annotations:
      an emptied map is patched away whole. */
  function PatchAnnotations(read: Labels, wanted: Labels, stored: Labels): (patched: Labels)
    ensures wanted == read - {PROMOTE, ABORT} ==> patched == Cleared(read, stored)
  {
    assert wanted == read - {PROMOTE, ABORT} ==> (wanted == map[] <==> read.Keys <= {PROMOTE, ABORT}) by {
      assert wanted == read - {PROMOTE, ABORT} ==> wanted.Keys == read.Keys - {PROMOTE, ABORT};
      assert wanted == map[] <==> wanted.Keys == {};
    }
    assert wanted == read - {PROMOTE, ABORT} ==> read.Keys - wanted.Keys == {PROMOTE, ABORT} * read.Keys;
    if wanted == map[] then map[] else stored - (read.Keys - wanted.Keys)
  }

  function Requeued(e: Error): Outcome {
    if e == Retryable then Backoff else Failure(e)
  }

  /** `n` writes of the pass have been made, starting from `before`. */
  ghost predicate Reached(p: Pass, before: World, n: nat, now: World) {
    n <= |Plan(p)| && Exec(p, n, before) == Ok(now)
  }

  /** `n` writes have been made; then either a fault stopped the pass, or the next write raises `err`. */
  ghost predicate Stopped(reliable: bool, p: Pass, before: World, n: nat, now: World, err: Option<Error>) {
    && Reached(p, before, n, now)
    && (err.Some? ==>
          if err.value == Retryable || err.value == Unavailable then !reliable
          else n < |Plan(p)| && Apply(Plan(p)[n], p, now) == Err(err.value))
  }

  /** A fault has its own two names: the writes themselves never raise them. */
  lemma WritesRaiseTheirOwn(e: Effect, p: Pass, w: World)
    ensures Apply(e, p, w).Err? ==> Apply(e, p, w).error != Retryable && Apply(e, p, w).error != Unavailable
  {
    hide Decide, NextStatus;
  }

  /** One more write was attempted: either it happened or it did not. */
  lemma Attempt(reliable: bool, lost: Error, p: Pass, before: World, n: nat, mid: World, now: World, err: Option<Error>)
    returns (m: nat)
    requires Reached(p, before, n, mid) && n < |Plan(p)| && (lost == Retryable || lost == Unavailable)
    requires Attempted(reliable, lost, Apply(Plan(p)[n], p, mid), mid, now, err)
    ensures n <= m <= n + 1 && Stopped(reliable, p, before, m, now, err) && Named(lost, err)
    ensures err.None? ==> m == n + 1
  {
    WritesRaiseTheirOwn(Plan(p)[n], p, mid);
    m := if err.Some? && now == mid then n else n + 1;
  }

  /** If a fault is to blame, it is reported as `lost`. */
  predicate Named(lost: Error, err: Option<Error>) {
    err == Some(Retryable) || err == Some(Unavailable) ==> err == Some(lost)
  }

  /** On a reliable server, where a pass stops is where `RunFrom` stops. */
  lemma {:induction false} StoppedIsRun(p: Pass, before: World, n: nat, now: World)
    requires Reached(p, before, n, now)
    ensures RunFrom(p, 0, before) == RunFrom(p, n, now)
  {
    if n == 0 {
    } else {
      StoppedIsRun(p, before, n - 1, Exec(p, n - 1, before).value);
    }
  }

  method TearDown(api: ApiServer, p: Pass) returns (err: Option<Error>, ghost n: nat)
    requires Traffic.Supported(p.c) && EndsRollout(p)
    modifies api
    ensures Stopped(api.reliable, p, old(api.world), n, api.world, err) && n <= |Body(p)| && Named(Retryable, err)
    ensures err.None? ==> n == |Body(p)|
  {
    ghost var before := api.world;
    assert Plan(p)[0] == ResetTraffic && Plan(p)[1] == DeleteDeployment && Plan(p)[2] == DeleteService;
    err := Traffic.Reset(api, p.key, p.c);
    n := Attempt(api.reliable, Retryable, p, before, 0, before, api.world, err);
    if err.Some? {
      return;
    }
    err, n := CleanupCanary(api, p, before);
  }

  method CleanupCanary(api: ApiServer, p: Pass, ghost before: World) returns (err: Option<Error>, ghost n: nat)
    requires EndsRollout(p) && Reached(p, before, 1, api.world)
    modifies api
    ensures Stopped(api.reliable, p, before, n, api.world, err) && n <= |Body(p)| && Named(Retryable, err)
    ensures err.None? ==> n == |Body(p)|
  {
    assert Plan(p)[1] == DeleteDeployment && Plan(p)[2] == DeleteService;
    err := Workload.CleanupDeployment(api, p.key, p.c);
    n := Attempt(api.reliable, Retryable, p, before, 1, old(api.world), api.world, err);
    if err.Some? {
      return;
    }
    ghost var mid := api.world;
    err := Workload.CleanupService(api, p.key, p.c);
    n := Attempt(api.reliable, Retryable, p, before, 2, mid, api.world, err);
  }

  method SetUp(api: ApiServer, p: Pass) returns (err: Option<Error>, ghost n: nat)
    requires Traffic.Supported(p.c) && SetsUp(p)
    modifies api
    ensures Stopped(api.reliable, p, old(api.world), n, api.world, err) && n <= |Body(p)| && Named(Retryable, err)
    ensures err.None? ==> n == |Body(p)|
  {
    ghost var before := api.world;
    assert Plan(p)[0] == RouteTraffic && Plan(p)[1] == EnsureDeployment;
    err := Traffic.Reconcile(api, p.key, p.c, Decide(p).weight);
    n := Attempt(api.reliable, Retryable, p, before, 0, before, api.world, err);
    if err.Some? {
      return;
    }
    ghost var mid := api.world;
    err := Workload.EnsureCanaryDeployment(api, p.key, p.c, p.t);
    n := Attempt(api.reliable, Retryable, p, before, 1, mid, api.world, err);
    if err.Some? {
      return;
    }
    err, n := EnsureServices(api, p, before);
  }

  method EnsureServices(api: ApiServer, p: Pass, ghost before: World) returns (err: Option<Error>, ghost n: nat)
    requires SetsUp(p) && Reached(p, before, 2, api.world)
    modifies api
    ensures Stopped(api.reliable, p, before, n, api.world, err) && n <= |Body(p)| && Named(Retryable, err)
    ensures err.None? ==> n == |Body(p)|
  {
    if p.c.spec.service.port == 0 {
      return None, 2;
    }
    assert Plan(p)[2] == EnsureStableService && Plan(p)[3] == EnsureCanaryService;
    err := Workload.EnsureStableService(api, p.key, p.c, p.t);
    n := Attempt(api.reliable, Retryable, p, before, 2, old(api.world), api.world, err);
    if err.Some? {
      return;
    }
    ghost var mid := api.world;
    err := Workload.EnsureCanaryService(api, p.key, p.c, p.t);
    n := Attempt(api.reliable, Retryable, p, before, 3, mid, api.world, err);
  }

  method ApplyBody(api: ApiServer, p: Pass) returns (err: Option<Error>, ghost n: nat)
    requires Traffic.Supported(p.c)
    modifies api
    ensures Stopped(api.reliable, p, old(api.world), n, api.world, err) && n <= |Body(p)| && Named(Retryable, err)
    ensures err.None? ==> n == |Body(p)|
  {
    var d := Decide(p);
    match d.verb {
      case Rollback | Promote =>
        err, n := TearDown(api, p);
      case Advance | Hold =>
        if d.phase.Progressing? || d.phase.AwaitingPromotion? {
          err, n := SetUp(api, p);
        } else {
          err, n := None, 0;
        }
    }
  }

  /** The two patches that close a pass: first the consumed commands, then the status. */
  method Persist(api: ApiServer, p: Pass, ghost before: World) returns (err: Option<Error>, ghost n: nat)
    requires Reached(p, before, |Body(p)|, api.world) && p.key in api.world.canaries
    modifies api
    ensures Stopped(api.reliable, p, before, n, api.world, err) && n >= |Body(p)| && Named(Unavailable, err)
    ensures err.None? ==> n == |Plan(p)|
  {
    n := |Body(p)|;
    var canary := new CanaryObject(p.c);
    if PromoteRequested(p.c) || AbortRequested(p.c) {
      ghost var mid := api.world;
      ClearCommandAnnotations(canary);
      var stored := api.world.canaries[p.key];
      var patched := PatchAnnotations(p.c.annotations, canary.annotations, stored.annotations);
      assert patched == Cleared(p.c.annotations, stored.annotations);
      err := api.PutCanary(p.key, stored.(annotations := patched));
      assert Plan(p)[n] == ClearCommands;
      n := Attempt(api.reliable, Unavailable, p, before, n, mid, api.world, err);
      if err.Some? {
        return;
      }
    }
    ghost var mid := api.world;
    UpdateStatus(canary, p, Decide(p));
    assert Plan(p)[n] == PersistStatus;
    err := api.PutCanary(p.key, api.world.canaries[p.key].(status := canary.status));
    n := Attempt(api.reliable, Unavailable, p, before, n, mid, api.world, err);
  }

  /** Why no pass begins. */
  ghost function Refusal(engine: bool, w: World, k: Key, replies: nat -> Analysis.Reply): Outcome {
    if k !in w.canaries then Forgotten
    else
      var c := w.canaries[k];
      if Skipped(c) || TargetKey(k, c) !in w.deployments then SkippedPass
      else if Analyses(engine, c) && Analysis.Evaluated(c, replies).Err? then
        Requeued(Analysis.Evaluated(c, replies).error)
      else Failure(Unsupported)
  }

  /** A missing Canary is forgotten; one that is switched off, paused or without a target is skipped; an
      analysis without an answer is tried again later if the error says so, and is a failure otherwise;
      so is a missing router. */
  lemma RefusalSaysWhy(engine: bool, w: World, k: Key, replies: nat -> Analysis.Reply)
    requires Begin(engine, w, k, replies).None?
    ensures var out := Refusal(engine, w, k, replies);
      && (out == Forgotten <==> k !in w.canaries)
      && (k in w.canaries ==>
            var c := w.canaries[k];
            && (out == SkippedPass <==> Skipped(c) || Key(k.ns, c.spec.target.name) !in w.deployments)
            && (out == Backoff ==> exists n: nat :: n < |c.spec.analysis.metrics| && replies(n) == Analysis.QueryError(Retryable))
            && forall n: nat | n < |c.spec.analysis.metrics| && replies(n).QueryError? && forall i: nat | i < n :: replies(i).Value? ::
                 !out.SkippedPass? && Analyses(engine, c) ==>
                   out == if replies(n).error == Retryable then Backoff else Failure(replies(n).error))
      && (k in w.canaries && !out.SkippedPass?
          && (Analyses(engine, w.canaries[k]) ==> forall n: nat | n < |w.canaries[k].spec.analysis.metrics| :: replies(n).Value?) ==>
            out == Failure(Unsupported))
  {
    if k in w.canaries {
      var c := w.canaries[k];
      forall n: nat | n < |c.spec.analysis.metrics| && replies(n).QueryError? && forall i: nat | i < n :: replies(i).Value?
        ensures Analysis.Evaluated(c, replies) == Err(replies(n).error)
      {
        Analysis.FirstFailureEndsRun(c, replies, n);
      }
      if Analysis.Evaluated(c, replies).Err? {
        var n := Analysis.FailingQuery(replies, 0, |c.spec.analysis.metrics|);
      }
    }
  }

  /** How a pass that has begun may end, after `n` of its writes. A fault in the
      body makes it back off; one in its first reads, or in a patch, is a failure. */
  ghost predicate Ends(reliable: bool, p: Pass, before: World, n: nat, now: World, out: Outcome) {
    match out
    case Done(phase) => phase == Decide(p).phase && n == |Plan(p)| && Reached(p, before, n, now)
    case Backoff => n <= |Body(p)| && Stopped(reliable, p, before, n, now, Some(Retryable))
    case Failure(e) =>
      e != Retryable && (e == Unavailable ==> n == 0 || n >= |Body(p)|) && Stopped(reliable, p, before, n, now, Some(e))
    case Forgotten | SkippedPass => false
  }

  datatype Opening = Refused(out: Outcome) | Opened(p: Pass)

  /** The part of a pass that only reads. */
  method Open(api: ApiServer, k: Key, engine: bool, replies: nat -> Analysis.Reply) returns (r: Opening)
    ensures match r
            case Opened(p) => Begin(engine, api.world, k, replies) == Some(p)
            case Refused(out) =>
              if !api.reliable && out == Failure(Unavailable) then true
              else Begin(engine, api.world, k, replies) == None && out == Refusal(engine, api.world, k, replies)
  {
    var fetched := Fetch(api.reliable, api.world.canaries, k);
    if fetched.Err? {
      return Refused(if fetched.error == NotFound then Forgotten else Failure(fetched.error));
    }
    var c := fetched.value;
    if Lookup(c.annotations, CANARY_ENABLED) == "false" {
      return Refused(SkippedPass);
    }
    if Lookup(c.annotations, PAUSED) == "true" {
      return Refused(SkippedPass);
    }
    var target := Fetch(api.reliable, api.world.deployments, TargetKey(k, c));
    if target.Err? {
      return Refused(if target.error == NotFound then SkippedPass else Failure(target.error));
    }
    var analysis: Option<AnalysisResult> := None;
    if c.spec.strategy.mode.Progressive? && c.spec.analysis.enabled && engine && c.status.phase.Analyzing? {
      var result := Analysis.Evaluate(c, replies);
      if result.Err? {
        return Refused(Requeued(result.error));
      }
      analysis := Some(result.value);
    }
    if !Traffic.Supported(c) {
      return Refused(Failure(Unsupported));
    }
    r := Opened(Pass(k, c, target.value, analysis));
  }

  /** The part of a pass that writes. */
  method Close(api: ApiServer, p: Pass) returns (out: Outcome, ghost n: nat)
    requires Traffic.Supported(p.c) && p.key in api.world.canaries
    modifies api
    ensures Ends(api.reliable, p, old(api.world), n, api.world, out)
  {
    ghost var before := api.world;
    var err;
    err, n := ApplyBody(api, p);
    if err.Some? {
      return Requeued(err.value), n;
    }
    BodyKeepsCanaries(p, before, |Body(p)|);
    err, n := Persist(api, p, before);
    if err.Some? {
      return Failure(err.value), n;
    }
    out := Done(Decide(p).phase);
  }

  /** One pass. Whatever fails, the cluster is left as by the first `n` writes of the pass that
      `Begin` describes; the pass reports `Done` only after all of them. On a reliable server it
      does exactly what `QuietPass` says, and says why if it does nothing. */
  method Reconcile(api: ApiServer, k: Key, engine: bool, replies: nat -> Analysis.Reply)
    returns (out: Outcome, ghost n: nat)
    modifies api
    ensures match Begin(engine, old(api.world), k, replies)
            case None => api.world == old(api.world) && !out.Done?
            case Some(p) => Ends(api.reliable, p, old(api.world), n, api.world, out)
    ensures api.reliable ==>
      && api.world == QuietPass(engine, old(api.world), k, replies)
      && (Begin(engine, old(api.world), k, replies).None? ==> out == Refusal(engine, old(api.world), k, replies))
  {
    var opening := Open(api, k, engine, replies);
    match opening {
      case Refused(refusal) =>
        out, n := refusal, 0;
      case Opened(p) =>
        out, n := Close(api, p);
        StoppedIsRun(p, old(api.world), n, api.world);
    }
  }

  lemma {:induction false} BodyKeepsCanaries(p: Pass, before: World, n: nat)
    requires n <= |Body(p)| && Exec(p, n, before).Ok?
    ensures Exec(p, n, before).value.canaries == before.canaries
  {
    if n == 0 {
    } else {
      BodyKeepsCanaries(p, before, n - 1);
      assert Plan(p)[n - 1] == Body(p)[n - 1];
      WriteTouchesOneKind(Plan(p)[n - 1], p, Exec(p, n - 1, before).value, Exec(p, n, before).value);
    }
  }
}
