/** What the controller leaves alone, and why several Canaries can share a namespace. */
module Frames {
  import opened Api
  import opened Rollout
  import opened Passes
  import opened Runs
  import NginxRouter
  import RouteRouter
  import Traffic
  import Workload

  // ---- User objects ----

  ghost predicate DeploymentsFramed(w: World, w': World, k: Key, c: Canary) {
    forall key | key != CanaryKey(k, c) :: SameAt(w.deployments, w'.deployments, key)
  }

  ghost predicate ServicesFramed(w: World, w': World, k: Key, c: Canary) {
    var stable := TargetKey(k, c);
    && (forall key | key != CanaryKey(k, c) && key != stable :: SameAt(w.services, w'.services, key))
    && (stable in w.services ==>
          && stable in w'.services
          && w'.services[stable] == w.services[stable].(ports := w'.services[stable].ports)
          && (Lookup(w.services[stable].labels, LABEL_MANAGED) != "true" ==> w'.services[stable] == w.services[stable]))
  }

  predicate OwnsIngress(k: Key, c: Canary, key: Key) {
    c.spec.traffic.provider.Nginx? && c.spec.traffic.ingressRef.Some? && key == NginxRouter.SiblingKey(k, c)
  }

  predicate OwnsRouteWeights(k: Key, c: Canary, key: Key) {
    c.spec.traffic.provider.OpenShiftRoute? && c.spec.traffic.routeRef.Some? && key == RouteRouter.RouteKey(k, c)
  }

  ghost predicate TrafficFramed(w: World, w': World, k: Key, c: Canary) {
    && (forall key | !OwnsIngress(k, c, key) :: SameAt(w.ingresses, w'.ingresses, key))
    && w'.routes.Keys == w.routes.Keys
    && (forall key | key in w.routes ::
          if OwnsRouteWeights(k, c, key)
          then w'.routes[key] == w.routes[key].(toWeight := w'.routes[key].toWeight, alternates := w'.routes[key].alternates)
          else w'.routes[key] == w.routes[key])
  }

  ghost predicate CanariesFramed(w: World, w': World, k: Key) {
    && w'.canaries.Keys == w.canaries.Keys
    && (forall key | key in w.canaries :: w'.canaries[key].spec == w.canaries[key].spec)
    && (forall key | key in w.canaries && key != k :: w'.canaries[key] == w.canaries[key])
  }

  /** The only objects a write of a pass for `k` may change, and how far. */
  ghost predicate OnlyDerivedObjectsChange(w: World, w': World, k: Key, c: Canary) {
    && DeploymentsFramed(w, w', k, c)
    && ServicesFramed(w, w', k, c)
    && TrafficFramed(w, w', k, c)
    && CanariesFramed(w, w', k)
  }

  lemma RoutingIsFramed(w: World, k: Key, c: Canary, weight: int)
    ensures Traffic.Reconciled(w, k, c, weight).Ok? ==> TrafficFramed(w, Traffic.Reconciled(w, k, c, weight).value, k, c)
    ensures TrafficFramed(w, Traffic.WasReset(w, k, c), k, c)
  {
  }

  lemma StableServiceIsFramed(w: World, k: Key, c: Canary, t: Deployment)
    ensures ServicesFramed(w, Workload.EnsuredStableService(w, k, c, t), k, c)
  {
  }

  lemma CanaryServiceIsFramed(w: World, k: Key, c: Canary, t: Deployment)
    ensures Workload.EnsuredCanaryService(w, k, c, t).Ok? ==>
      ServicesFramed(w, Workload.EnsuredCanaryService(w, k, c, t).value, k, c)
    ensures ServicesFramed(w, w.(services := w.services - {CanaryKey(k, c)}), k, c)
  {
    assert |CanaryKey(k, c).name| == |TargetKey(k, c).name| + 7;
  }

  lemma OwnCanaryOnly(e: Effect, p: Pass, w: World, w': World)
    requires Apply(e, p, w) == Ok(w')
    ensures forall key | key in w.canaries && key != p.key :: key in w'.canaries && w'.canaries[key] == w.canaries[key]
  {
  }

  lemma CanariesAreFramed(e: Effect, p: Pass, w: World, w': World)
    requires Apply(e, p, w) == Ok(w')
    ensures CanariesFramed(w, w', p.key)
  {
    WritesToCanaries(e, p, w, w');
    OwnCanaryOnly(e, p, w, w');
  }

  lemma ServicesAreFramed(e: Effect, p: Pass, w: World, w': World)
    requires Apply(e, p, w) == Ok(w')
    ensures ServicesFramed(w, w', p.key, p.c)
  {
    match e
    case EnsureStableService => StableServiceIsFramed(w, p.key, p.c, p.t);
    case EnsureCanaryService | DeleteService => CanaryServiceIsFramed(w, p.key, p.c, p.t);
    case _ => WriteTouchesOneKind(e, p, w, w');
  }

  lemma DeploymentsAreFramed(e: Effect, p: Pass, w: World, w': World)
    requires Apply(e, p, w) == Ok(w')
    ensures DeploymentsFramed(w, w', p.key, p.c)
  {
    WriteTouchesOneKind(e, p, w, w');
  }

  lemma TrafficIsFramed(e: Effect, p: Pass, w: World, w': World)
    requires Apply(e, p, w) == Ok(w')
    ensures TrafficFramed(w, w', p.key, p.c)
  {
    if e == RouteTraffic || e == ResetTraffic {
      RoutingIsFramed(w, p.key, p.c, Decide(p).weight);
    } else {
      WriteTouchesOneKind(e, p, w, w');
    }
  }

  lemma WriteIsFramed(e: Effect, p: Pass, w: World, w': World)
    requires Apply(e, p, w) == Ok(w')
    ensures OnlyDerivedObjectsChange(w, w', p.key, p.c)
  {
    CanariesAreFramed(e, p, w, w');
    ServicesAreFramed(e, p, w, w');
    DeploymentsAreFramed(e, p, w, w');
    TrafficIsFramed(e, p, w, w');
  }

  /** Over every run, no write of the controller touches the target Deployment, the stable
      Ingress, or a Service of the target's name that is not managed. */
  lemma UserObjectsAreFramed(engine: bool, k: Key, tr: seq<Sys>, i: nat)
    requires IsRun(engine, k, tr) && i + 1 < |tr| && Writes(tr[i], tr[i + 1])
    ensures k in tr[i].w.canaries
    ensures
      var w, w', c := tr[i].w, tr[i + 1].w, Own(k, tr[i]);
      && SameAt(w.deployments, w'.deployments, TargetKey(k, c))
      && (c.spec.traffic.ingressRef.Some? ==> SameAt(w.ingresses, w'.ingresses, NginxRouter.StableKey(k, c)))
      && (TargetKey(k, c) in w.services && Lookup(w.services[TargetKey(k, c)].labels, LABEL_MANAGED) != "true" ==>
            SameAt(w.services, w'.services, TargetKey(k, c)))
  {
    CoreAt(engine, k, tr, i);
    var c, p := Own(k, tr[i]), tr[i].run.value.p;
    WriteIsFramed(Plan(p)[tr[i].run.value.done], p, tr[i].w, tr[i + 1].w);
    assert |CanaryKey(k, c).name| == |TargetKey(k, c).name| + 7;
    if c.spec.traffic.ingressRef.Some? {
      assert |NginxRouter.SiblingKey(k, c).name| == |NginxRouter.StableKey(k, c).name| + 7;
    }
  }

  // ---- Several Canaries ----

  /** The names of the two Canaries' targets and traffic objects are distinct, and neither is
      a name derived from the other. */
  ghost predicate Apart(k: Key, c: Canary, k': Key, c': Canary) {
    && k != k'
    && (k.ns == k'.ns ==>
          && c.spec.target.name != c'.spec.target.name
          && c.spec.target.name != CanaryServiceName(c') && CanaryServiceName(c) != c'.spec.target.name
          && (c.spec.traffic.provider.Nginx? && c.spec.traffic.ingressRef.Some?
              && c'.spec.traffic.provider.Nginx? && c'.spec.traffic.ingressRef.Some? ==>
                var i, i' := c.spec.traffic.ingressRef.value, c'.spec.traffic.ingressRef.value;
                i != i' && i != NginxRouter.SiblingName(i') && NginxRouter.SiblingName(i) != i')
          && (c.spec.traffic.provider.OpenShiftRoute? && c.spec.traffic.routeRef.Some?
              && c'.spec.traffic.provider.OpenShiftRoute? && c'.spec.traffic.routeRef.Some? ==>
                c.spec.traffic.routeRef.value != c'.spec.traffic.routeRef.value))
  }

  lemma DerivedNamesDiffer(a: string, b: string)
    ensures a != b ==> a + "-canary" != b + "-canary" && NginxRouter.SiblingName(a) != NginxRouter.SiblingName(b)
  {
    if a + "-canary" == b + "-canary" {
      assert (a + "-canary")[..|a|] == (b + "-canary")[..|b|];
    }
    if NginxRouter.SiblingName(a) == NginxRouter.SiblingName(b) {
      assert NginxRouter.SiblingName(a)[..|a|] == NginxRouter.SiblingName(b)[..|b|];
    }
  }

  lemma KeysApart(k: Key, c: Canary, k': Key, c': Canary)
    requires Apart(k, c, k', c')
    ensures Apart(k', c', k, c)
    ensures CanaryKey(k, c) != CanaryKey(k', c') && TargetKey(k, c) != TargetKey(k', c')
    ensures CanaryKey(k, c) != TargetKey(k', c') && TargetKey(k, c) != CanaryKey(k', c')
    ensures
      c.spec.traffic.provider.Nginx? && c.spec.traffic.ingressRef.Some?
      && c'.spec.traffic.provider.Nginx? && c'.spec.traffic.ingressRef.Some? ==>
        && NginxRouter.SiblingKey(k, c) != NginxRouter.SiblingKey(k', c')
        && NginxRouter.SiblingKey(k, c) != NginxRouter.StableKey(k', c')
        && NginxRouter.StableKey(k, c) != NginxRouter.SiblingKey(k', c')
    ensures
      c.spec.traffic.provider.OpenShiftRoute? && c.spec.traffic.routeRef.Some?
      && c'.spec.traffic.provider.OpenShiftRoute? && c'.spec.traffic.routeRef.Some? ==>
        RouteRouter.RouteKey(k, c) != RouteRouter.RouteKey(k', c')
  {
    DerivedNamesDiffer(c.spec.target.name, c'.spec.target.name);
    if c.spec.traffic.ingressRef.Some? && c'.spec.traffic.ingressRef.Some? {
      DerivedNamesDiffer(c.spec.traffic.ingressRef.value, c'.spec.traffic.ingressRef.value);
    }
  }

  /** To one Canary, the writes of another are a change by the environment that keeps its
      annotations and its target; `Fleet.EveryMemberSeesARun` makes runs of many Canaries of that. */
  lemma OthersAreEnvironment(k: Key, e: Effect, p: Pass, w: World, w': World)
    requires k in w.canaries && Apart(k, w.canaries[k], p.key, p.c) && Apply(e, p, w) == Ok(w')
    ensures EnvironmentChange(k, w, w') && w'.canaries[k] == w.canaries[k]
    ensures SameAt(w.deployments, w'.deployments, TargetKey(k, w.canaries[k]))
  {
    WriteIsFramed(e, p, w, w');
    KeysApart(k, w.canaries[k], p.key, p.c);
  }
}
