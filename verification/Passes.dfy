/** What the writes of a pass leave alone, and what they have established so far. */
module Passes {
  import opened Api
  import opened Rollout
  import NginxRouter
  import RouteRouter
  import Traffic
  import Workload

  ghost predicate SameAt<K, V>(m: map<K, V>, m': map<K, V>, k: K) {
    (k in m <==> k in m') && (k in m ==> m[k] == m'[k])
  }

  /** What the provider holds for the Canary is the same in both states. */
  ghost predicate SameTraffic(w: World, w': World, k: Key, c: Canary) {
    match c.spec.traffic.provider
    case Nginx => c.spec.traffic.ingressRef.Some? ==> SameAt(w.ingresses, w'.ingresses, NginxRouter.SiblingKey(k, c))
    case OpenShiftRoute =>
      c.spec.traffic.routeRef.Some? ==>
        var key := RouteRouter.RouteKey(k, c);
        && (key in w.routes <==> key in w'.routes)
        && (key in w.routes ==>
              && w.routes[key].toWeight == w'.routes[key].toWeight
              && w.routes[key].alternates == w'.routes[key].alternates)
    case OtherProvider(_) => true
  }

  /** The objects derived from the Canary are the same in both states. */
  ghost predicate SameDerived(w: World, w': World, k: Key, c: Canary) {
    && SameTraffic(w, w', k, c)
    && SameAt(w.deployments, w'.deployments, CanaryKey(k, c))
    && SameAt(w.services, w'.services, CanaryKey(k, c))
  }

  /** Nothing derived from the Canary exists. */
  ghost predicate Clean(w: World, k: Key, c: Canary) {
    && Traffic.NoTraffic(w, k, c)
    && CanaryKey(k, c) !in w.deployments
    && CanaryKey(k, c) !in w.services
  }

  /** The two Canaries derive the same objects. */
  predicate SameRefs(c: Canary, c': Canary) {
    c.spec.traffic == c'.spec.traffic && c.spec.target.name == c'.spec.target.name
  }

  /** The canary Deployment runs the template of the target the pass read. */
  ghost predicate DeploymentMatches(w: World, p: Pass) {
    var key := CanaryKey(p.key, p.c);
    && key in w.deployments
    && w.deployments[key].spec == Workload.CanaryDeploymentSpec(p.t)
    && w.deployments[key].labels == Workload.OwnedLabels(p.key)
  }

  ghost predicate ServiceMatches(w: World, p: Pass) {
    var key := CanaryKey(p.key, p.c);
    && key in w.services
    && w.services[key].selector == Workload.CanarySelector(p.t)
    && w.services[key].ports == Workload.Ports(p.c)
  }

  /** What the first `n` writes of the pass have brought about. */
  ghost predicate Established(p: Pass, n: nat, w: World) {
    && (EndsRollout(p) ==>
          && (n >= 1 ==> Traffic.AllToStable(w, p.key, p.c))
          && (n >= 2 ==> CanaryKey(p.key, p.c) !in w.deployments)
          && (n >= 3 ==> CanaryKey(p.key, p.c) !in w.services))
    && (SetsUp(p) ==>
          && (n >= 1 ==> Traffic.Routed(w, p.key, p.c, Decide(p).weight))
          && (n >= 2 ==> DeploymentMatches(w, p))
          && (n >= 4 && p.c.spec.service.port != 0 ==> ServiceMatches(w, p)))
  }

  lemma DecisionIsOneKind(p: Pass)
    ensures !(EndsRollout(p) && SetsUp(p))
    ensures SetsUp(p) ==>
      && p.c.status.stable != "" && p.c.status.stable != Revision(p.t)
      && 0 <= NextStatus(p).index < |Steps(p.c)|
      && Decide(p).weight == Steps(p.c)[NextStatus(p).index]
      && p.c.status.index <= NextStatus(p).index <= p.c.status.index + 1
    ensures Decide(p).verb.Advance? ==> SetsUp(p) && NextStatus(p).index == p.c.status.index + 1
    ensures !Decide(p).verb.Advance? && !EndsRollout(p) ==> NextStatus(p).index == p.c.status.index
  {
  }

  /** The effects of one pass, by kind. */
  lemma PlanShape(p: Pass, n: nat)
    requires n < |Plan(p)|
    ensures EndsRollout(p) ==>
      && Plan(p)[0] == ResetTraffic && Plan(p)[1] == DeleteDeployment && Plan(p)[2] == DeleteService && |Body(p)| == 3
    ensures SetsUp(p) ==>
      && Plan(p)[0] == RouteTraffic && Plan(p)[1] == EnsureDeployment
      && (p.c.spec.service.port == 0 ==> |Body(p)| == 2)
      && (p.c.spec.service.port != 0 ==>
            |Body(p)| == 4 && Plan(p)[2] == EnsureStableService && Plan(p)[3] == EnsureCanaryService)
    ensures !SetsUp(p) && !EndsRollout(p) ==> Body(p) == []
    ensures n >= |Body(p)| ==> Plan(p)[n] == ClearCommands || Plan(p)[n] == PersistStatus
    ensures Plan(p)[n] == PersistStatus <==> n == |Plan(p)| - 1
    ensures Plan(p)[n] == ClearCommands <==>
      n == |Body(p)| && (PromoteRequested(p.c) || AbortRequested(p.c))
  {
    DecisionIsOneKind(p);
  }

  /** Each write changes one kind of object. */
  lemma WriteTouchesOneKind(e: Effect, p: Pass, w: World, w': World)
    requires Apply(e, p, w) == Ok(w')
    ensures e != EnsureDeployment && e != DeleteDeployment ==> w'.deployments == w.deployments
    ensures e != EnsureStableService && e != EnsureCanaryService && e != DeleteService ==> w'.services == w.services
    ensures e != RouteTraffic && e != ResetTraffic ==> w'.ingresses == w.ingresses && w'.routes == w.routes
    ensures e != ClearCommands && e != PersistStatus ==> w'.canaries == w.canaries
  {
    hide Decide, NextStatus;
  }

  /** No write changes any Canary's spec; only the last one changes a status, and only its own. */
  lemma WritesToCanaries(e: Effect, p: Pass, w: World, w': World)
    requires Apply(e, p, w) == Ok(w')
    ensures w'.canaries.Keys == w.canaries.Keys
    ensures forall k | k in w.canaries ::
      && w'.canaries[k].spec == w.canaries[k].spec
      && w'.canaries[k].status == (if e.PersistStatus? && k == p.key then NextStatus(p) else w.canaries[k].status)
      && w'.canaries[k].annotations ==
           (if e.ClearCommands? && k == p.key then Cleared(p.c.annotations, w.canaries[k].annotations) else w.canaries[k].annotations)
  {
    if e == ClearCommands || e == PersistStatus {
    } else {
      WriteTouchesOneKind(e, p, w, w');
    }
  }

  lemma TearDownEstablishes(p: Pass, n: nat, w: World, w': World)
    requires EndsRollout(p) && n < |Plan(p)| && Apply(Plan(p)[n], p, w) == Ok(w')
    requires Established(p, n, w)
    ensures Established(p, n + 1, w')
  {
    PlanShape(p, n);
    DecisionIsOneKind(p);
    WriteTouchesOneKind(Plan(p)[n], p, w, w');
    if n == 0 {
      ResetLeavesNoTraffic(w, p.key, p.c);
    }
  }

  lemma ResetLeavesNoTraffic(w: World, k: Key, c: Canary)
    ensures Traffic.AllToStable(Traffic.WasReset(w, k, c), k, c) && Traffic.NoTraffic(Traffic.WasReset(w, k, c), k, c)
  {
    Traffic.ResetGivesStableAll(w, k, c);
  }

  lemma RoutingIsKept(p: Pass, e: Effect, w: World, w': World)
    requires Apply(e, p, w) == Ok(w') && e != RouteTraffic && e != ResetTraffic
    ensures forall weight :: Traffic.Routed(w, p.key, p.c, weight) ==> Traffic.Routed(w', p.key, p.c, weight)
  {
    WriteTouchesOneKind(e, p, w, w');
  }

  lemma SetUpEstablishes(p: Pass, n: nat, w: World, w': World)
    requires SetsUp(p) && n < |Plan(p)| && Apply(Plan(p)[n], p, w) == Ok(w')
    requires Established(p, n, w)
    ensures Established(p, n + 1, w')
  {
    hide Decide, Traffic.Routed, Workload.CanaryDeploymentSpec, Workload.CanarySelector, Workload.Ports;
    PlanShape(p, n);
    DecisionIsOneKind(p);
    var key := CanaryKey(p.key, p.c);
    assert |key.name| == |TargetKey(p.key, p.c).name| + 7;
    if n == 0 {
      Traffic.ReconcileRoutes(w, p.key, p.c, Decide(p).weight);
    } else {
      RoutingIsKept(p, Plan(p)[n], w, w');
      WriteTouchesOneKind(Plan(p)[n], p, w, w');
      assert n != 1 ==> w'.deployments == w.deployments;
      assert n >= 4 ==> w'.services == w.services;
    }
  }

  lemma WriteEstablishes(p: Pass, n: nat, w: World, w': World)
    requires n < |Plan(p)| && Apply(Plan(p)[n], p, w) == Ok(w')
    requires Established(p, n, w)
    ensures Established(p, n + 1, w')
  {
    if EndsRollout(p) {
      TearDownEstablishes(p, n, w, w');
    } else if SetsUp(p) {
      SetUpEstablishes(p, n, w, w');
    }
  }

  /** What was established survives any change that leaves the derived objects alone. */
  lemma EstablishedIsKept(p: Pass, n: nat, w: World, w': World, c: Canary)
    requires Established(p, n, w) && SameDerived(w, w', p.key, c) && SameRefs(c, p.c)
    ensures Established(p, n, w')
  {
  }

  lemma CleanIsKept(w: World, w': World, k: Key, c: Canary, c': Canary)
    requires SameDerived(w, w', k, c) && SameRefs(c, c')
    ensures Clean(w, k, c) <==> Clean(w', k, c')
    ensures Traffic.Live(w, k, c) == Traffic.Live(w', k, c')
  {
  }

  /** Only the set-up writes can leave something behind. */
  lemma OnlySetUpLeavesObjects(e: Effect, p: Pass, w: World, w': World)
    requires Apply(e, p, w) == Ok(w')
    requires e != RouteTraffic && e != EnsureDeployment && e != EnsureCanaryService
    requires Clean(w, p.key, p.c)
    ensures Clean(w', p.key, p.c)
  {
    hide Decide, Plan, NextStatus;
    assert |CanaryKey(p.key, p.c).name| == |TargetKey(p.key, p.c).name| + 7;
    if e == ResetTraffic {
      ResetLeavesNoTraffic(w, p.key, p.c);
    } else {
      WriteTouchesOneKind(e, p, w, w');
    }
  }

  /** The live weight moves only when traffic is routed or reset. */
  lemma LiveAfterWrite(e: Effect, p: Pass, w: World, w': World)
    requires Apply(e, p, w) == Ok(w')
    ensures Traffic.Live(w', p.key, p.c) ==
      match e
      case RouteTraffic => Traffic.Observed(p.c, Decide(p).weight)
      case ResetTraffic => 0
      case _ => Traffic.Live(w, p.key, p.c)
  {
    hide Decide, NextStatus;
    if e == RouteTraffic {
      Traffic.ReconcileRoutes(w, p.key, p.c, Decide(p).weight);
      Traffic.RoutedShows(w', p.key, p.c, Decide(p).weight);
    } else if e == ResetTraffic {
      ResetShowsNothing(w, p.key, p.c);
    } else {
      WriteTouchesOneKind(e, p, w, w');
    }
  }

  lemma ResetShowsNothing(w: World, k: Key, c: Canary)
    ensures Traffic.Live(Traffic.WasReset(w, k, c), k, c) == 0
  {
  }
}
