/** Without commands or changes, the controller reaches a fixed point of the whole cluster in two passes. */
module Convergence {
  import opened Api
  import opened Rollout
  import opened Passes
  import opened Frames
  import opened Interleaving
  import Analysis
  import Traffic
  import Workload

  ghost predicate NoOp(e: Effect, p: Pass, w: World) {
    Apply(e, p, w) == Ok(w)
  }

  // ---- Every write is idempotent ----

  lemma RoutingTwice(w: World, k: Key, c: Canary, weight: int)
    requires Traffic.Reconciled(w, k, c, weight).Ok?
    ensures var w' := Traffic.Reconciled(w, k, c, weight).value; Traffic.Reconciled(w', k, c, weight) == Ok(w')
  {
    Traffic.LastWeightOverwrites(w, k, c, weight, weight);
  }

  lemma EnsuringTwice(w: World, k: Key, c: Canary, t: Deployment)
    ensures Workload.EnsuredDeployment(w, k, c, t).Ok? ==>
      var w' := Workload.EnsuredDeployment(w, k, c, t).value; Workload.EnsuredDeployment(w', k, c, t) == Ok(w')
    ensures Workload.EnsuredCanaryService(w, k, c, t).Ok? ==>
      var w' := Workload.EnsuredCanaryService(w, k, c, t).value; Workload.EnsuredCanaryService(w', k, c, t) == Ok(w')
  {
    var key := CanaryKey(k, c);
    if Workload.EnsuredDeployment(w, k, c, t).Ok? {
      var w' := Workload.EnsuredDeployment(w, k, c, t).value;
      assert w'.deployments[key := w'.deployments[key]] == w'.deployments;
      var s := Workload.EnsuredCanaryService(w, k, c, t).value;
      assert s.services[key := s.services[key]] == s.services;
    }
  }

  lemma StableServiceTwice(w: World, k: Key, c: Canary, t: Deployment)
    ensures var w' := Workload.EnsuredStableService(w, k, c, t); Workload.EnsuredStableService(w', k, c, t) == w'
  {
    var key := TargetKey(k, c);
    var w' := Workload.EnsuredStableService(w, k, c, t);
    assert w'.services[key := w'.services[key]] == w'.services;
    var owned := Workload.OwnedLabels(k);
    assert LABEL_MANAGED != LABEL_CANARY;
    assert Lookup(owned, LABEL_MANAGED) == "true";
  }

  lemma DeletingTwice(w: World, key: Key)
    ensures w.deployments - {key} - {key} == w.deployments - {key}
    ensures w.services - {key} - {key} == w.services - {key}
  {
    assert w.deployments - {key} - {key} == w.deployments - {key};
    assert w.services - {key} - {key} == w.services - {key};
  }

  lemma PatchingTwice(e: Effect, p: Pass, w: World, w': World)
    requires (e == ClearCommands || e == PersistStatus) && Apply(e, p, w) == Ok(w')
    ensures NoOp(e, p, w')
  {
    var c := w'.canaries[p.key];
    if e == ClearCommands {
      assert Cleared(p.c.annotations, c.annotations) == c.annotations;
    }
    assert w'.canaries[p.key := c] == w'.canaries;
  }

  /** Doing a write again changes nothing. */
  lemma WriteIsIdempotent(e: Effect, p: Pass, w: World, w': World)
    requires Apply(e, p, w) == Ok(w')
    ensures NoOp(e, p, w')
  {
    match e
    case RouteTraffic => RoutingTwice(w, p.key, p.c, Decide(p).weight);
    case EnsureDeployment | EnsureCanaryService => EnsuringTwice(w, p.key, p.c, p.t);
    case EnsureStableService => StableServiceTwice(w, p.key, p.c, p.t);
    case ResetTraffic => Traffic.ResetTwice(w, p.key, p.c);
    case DeleteDeployment | DeleteService => DeletingTwice(w, CanaryKey(p.key, p.c));
    case ClearCommands | PersistStatus => PatchingTwice(e, p, w, w');
  }

  lemma NoOpOutlivesOtherKind(e: Effect, f: Effect, p: Pass, w: World, w': World)
    requires NoOp(e, p, w) && Apply(f, p, w) == Ok(w') && KindOf(e) != KindOf(f)
    ensures NoOp(e, p, w')
  {
    WriteIsLocal(f, p, w, w);
    WriteIsLocal(e, p, w, w');
  }

  lemma NoOpOutlivesOtherService(e: Effect, f: Effect, p: Pass, w: World, w': World)
    requires NoOp(e, p, w) && Apply(f, p, w) == Ok(w')
    requires KindOf(e) == KindOf(f) == Services && ServiceKey(e, p) != ServiceKey(f, p)
    ensures NoOp(e, p, w')
  {
    var key := ServiceKey(e, p);
    ServiceWriteIsPut(f, p, w, w);
    PutsCommute(w.services, key, None, ServiceKey(f, p), At(w'.services, ServiceKey(f, p)));
    ServiceWriteIsPut(e, p, w, w');
    assert Put(w'.services, key, At(w.services, key)) == w'.services;
  }

  lemma NoOpOutlivesOtherPatch(e: Effect, f: Effect, p: Pass, w: World, w': World)
    requires NoOp(e, p, w) && Apply(f, p, w) == Ok(w')
    requires KindOf(e) == KindOf(f) == Canaries && e != f
    ensures NoOp(e, p, w')
  {
    var c := w'.canaries[p.key];
    if e == ClearCommands {
      assert Cleared(p.c.annotations, w.canaries[p.key].annotations) == w.canaries[p.key].annotations;
    }
    assert w'.canaries[p.key := c] == w'.canaries;
  }

  /** A write that changes nothing still changes nothing after another write of the same pass. */
  lemma NoOpIsKept(e: Effect, f: Effect, p: Pass, w: World, w': World)
    requires NoOp(e, p, w) && Apply(f, p, w) == Ok(w') && e in Plan(p) && f in Plan(p)
    ensures NoOp(e, p, w')
  {
    if e == f {
      WriteIsIdempotent(e, p, w, w');
    } else if KindOf(e) != KindOf(f) {
      NoOpOutlivesOtherKind(e, f, p, w, w');
    } else {
      EffectsOfAPlan(p, e, f);
      if KindOf(e) == Services {
        NoOpOutlivesOtherService(e, f, p, w, w');
      } else {
        NoOpOutlivesOtherPatch(e, f, p, w, w');
      }
    }
  }

  lemma EffectsOfAPlan(p: Pass, e: Effect, f: Effect)
    requires e in Plan(p) && f in Plan(p) && e != f && KindOf(e) == KindOf(f)
    ensures KindOf(e) == Services ==> ServiceKey(e, p) != ServiceKey(f, p)
    ensures KindOf(e) == Services || KindOf(e) == Canaries
  {
    DecisionIsOneKind(p);
    assert |CanaryKey(p.key, p.c).name| == |TargetKey(p.key, p.c).name| + 7;
  }

  // ---- Doing a pass again changes nothing ----

  lemma {:induction false} NoOpsAreSkipped(p: Pass, m: nat, n: nat, w: World)
    requires m <= n <= |Plan(p)| && forall j | 0 <= j < n :: NoOp(Plan(p)[j], p, w)
    ensures RunFrom(p, m, w) == RunFrom(p, n, w)
    decreases n - m
  {
    if m == n {
    } else {
      NoOpsAreSkipped(p, m + 1, n, w);
    }
  }

  lemma {:induction false} RerunIsNoOp(p: Pass, n: nat, w: World)
    requires n <= |Plan(p)| && forall j | 0 <= j < n :: NoOp(Plan(p)[j], p, w)
    ensures RunFrom(p, 0, RunFrom(p, n, w)) == RunFrom(p, n, w)
    decreases |Plan(p)| - n
  {
    if n < |Plan(p)| && Apply(Plan(p)[n], p, w).Ok? {
      var w' := Apply(Plan(p)[n], p, w).value;
      forall j | 0 <= j < n + 1
        ensures NoOp(Plan(p)[j], p, w')
      {
        if j == n {
          WriteIsIdempotent(Plan(p)[n], p, w, w');
        } else {
          NoOpIsKept(Plan(p)[j], Plan(p)[n], p, w, w');
        }
      }
      RerunIsNoOp(p, n + 1, w');
    } else {
      NoOpsAreSkipped(p, 0, n, w);
    }
  }

  /** The two passes make the same writes. */
  ghost predicate SameWrites(p: Pass, q: Pass) {
    && p.key == q.key && p.t == q.t && p.c.spec == q.c.spec && p.c.annotations == q.c.annotations
    && Decide(p) == Decide(q) && NextStatus(p) == NextStatus(q)
  }

  lemma SameWritesSameWrite(p: Pass, q: Pass, e: Effect, w: World)
    requires SameWrites(p, q)
    ensures Plan(p) == Plan(q) && Apply(e, p, w) == Apply(e, q, w)
  {
  }

  lemma {:induction false} SameWritesSameRun(p: Pass, q: Pass, n: nat, w: World)
    requires SameWrites(p, q)
    ensures RunFrom(p, n, w) == RunFrom(q, n, w)
    decreases |Plan(p)| - n
  {
    SameWritesSameWrite(p, q, PersistStatus, w);
    if n >= |Plan(p)| {
    } else {
      SameWritesSameWrite(p, q, Plan(p)[n], w);
      if Apply(Plan(p)[n], p, w).Ok? {
        SameWritesSameRun(p, q, n + 1, Apply(Plan(p)[n], p, w).value);
      }
    }
  }

  /** The Canary is as before, or has its new status; its target is as before. */
  ghost predicate OnlyStatusMoved(p: Pass, w: World, w': World) {
    && p.key in w.canaries && p.key in w'.canaries
    && (w'.canaries[p.key] == w.canaries[p.key] || w'.canaries[p.key] == w.canaries[p.key].(status := NextStatus(p)))
    && SameAt(w.deployments, w'.deployments, TargetKey(p.key, p.c))
  }

  lemma WhatAWriteChanges(p: Pass, n: nat, w: World, w': World)
    requires p.key in w.canaries && !PromoteRequested(p.c) && !AbortRequested(p.c)
    requires n < |Plan(p)| && Apply(Plan(p)[n], p, w) == Ok(w')
    ensures OnlyStatusMoved(p, w, w')
  {
    PlanShape(p, n);
    WritesToCanaries(Plan(p)[n], p, w, w');
    WriteIsFramed(Plan(p)[n], p, w, w');
    assert |CanaryKey(p.key, p.c).name| == |TargetKey(p.key, p.c).name| + 7;
  }

  lemma {:induction false} WhatAPassChanges(p: Pass, n: nat, w: World)
    requires p.key in w.canaries && !PromoteRequested(p.c) && !AbortRequested(p.c)
    ensures OnlyStatusMoved(p, w, RunFrom(p, n, w))
    decreases |Plan(p)| - n
  {
    if n >= |Plan(p)| || Apply(Plan(p)[n], p, w).Err? {
    } else {
      var w' := Apply(Plan(p)[n], p, w).value;
      WhatAWriteChanges(p, n, w, w');
      WhatAPassChanges(p, n + 1, w');
    }
  }

  // ---- The fixed point ----

  predicate Undisturbed(c: Canary) {
    (c.spec.strategy.mode.Manual? || c.spec.strategy.mode.NoMode?) && !PromoteRequested(c) && !AbortRequested(c)
  }

  /** Unless it ends a rollout, a pass that reads the status it has itself written decides the same. */
  lemma DecisionIsStable(p: Pass, q: Pass)
    requires Undisturbed(p.c) && !EndsRollout(p) && p.analysis.None? && q.analysis.None?
    requires q.key == p.key && q.t == p.t && (q.c == p.c || q.c == p.c.(status := NextStatus(p)))
    ensures SameWrites(p, q)
  {
  }

  lemma EndIsFollowedByRest(p: Pass, q: Pass)
    requires Undisturbed(p.c) && EndsRollout(p) && q.analysis.None?
    requires q.t == p.t && q.c == p.c.(status := NextStatus(p))
    ensures !EndsRollout(q)
  {
  }

  lemma PassAgain(engine: bool, w: World, k: Key, replies: nat -> Analysis.Reply, p: Pass)
    requires Begin(engine, w, k, replies) == Some(p) && Undisturbed(p.c)
    ensures p.analysis.None?
    ensures var w' := RunFrom(p, 0, w);
      exists q :: Begin(engine, w', k, replies) == Some(q)
        && q.key == k && q.t == p.t && q.analysis.None? && (q.c == p.c || q.c == p.c.(status := NextStatus(p)))
  {
    WhatAPassChanges(p, 0, w);
    var w' := RunFrom(p, 0, w);
    var q := Begin(engine, w', k, replies);
    assert q.Some? && q.value.key == k && q.value.t == p.t;
  }

  lemma SettledUnlessEnded(engine: bool, w: World, k: Key, replies: nat -> Analysis.Reply, p: Pass)
    requires Begin(engine, w, k, replies) == Some(p) && Undisturbed(p.c) && !EndsRollout(p)
    ensures var w' := RunFrom(p, 0, w); QuietPass(engine, w', k, replies) == w'
  {
    PassAgain(engine, w, k, replies, p);
    var w' := RunFrom(p, 0, w);
    var q := Begin(engine, w', k, replies).value;
    DecisionIsStable(p, q);
    SameWritesSameRun(p, q, 0, w');
    RerunIsNoOp(p, 0, w);
  }

  /** A teardown without faults always completes. */
  lemma TeardownCompletes(p: Pass, w: World)
    requires EndsRollout(p) && p.key in w.canaries && !PromoteRequested(p.c) && !AbortRequested(p.c)
    ensures p.key in RunFrom(p, 0, w).canaries && RunFrom(p, 0, w).canaries[p.key].status == NextStatus(p)
  {
    assert Plan(p) == [ResetTraffic, DeleteDeployment, DeleteService, PersistStatus];
    var w1 := Apply(ResetTraffic, p, w).value;
    var w2 := Apply(DeleteDeployment, p, w1).value;
    var w3 := Apply(DeleteService, p, w2).value;
    assert RunFrom(p, 3, w3) == Apply(PersistStatus, p, w3).value;
    assert RunFrom(p, 2, w2) == RunFrom(p, 3, w3);
    assert RunFrom(p, 1, w1) == RunFrom(p, 2, w2);
  }

  /** From any cluster whatever and any status, an invalid step index included: in Manual mode,
      without commands or faults, the third pass changes nothing at all. Passes that stop at an
      error of their own, such as a missing Ingress, are included. */
  lemma TwoPassesConverge(engine: bool, w: World, k: Key, replies: nat -> Analysis.Reply)
    requires k in w.canaries && Undisturbed(w.canaries[k])
    ensures var w1 := QuietPass(engine, w, k, replies);
            var w2 := QuietPass(engine, w1, k, replies);
            QuietPass(engine, w2, k, replies) == w2
  {
    var p := Begin(engine, w, k, replies);
    if p.Some? {
      var w1 := RunFrom(p.value, 0, w);
      if EndsRollout(p.value) {
        PassAgain(engine, w, k, replies, p.value);
        var q := Begin(engine, w1, k, replies).value;
        TeardownCompletes(p.value, w);
        EndIsFollowedByRest(p.value, q);
        SettledUnlessEnded(engine, w1, k, replies, q);
      } else {
        SettledUnlessEnded(engine, w, k, replies, p.value);
      }
    }
  }
}
