/** What the objects derived from a Canary look like, field by field, and who owns them. */
module Derived {
  import opened Api
  import opened Rollout
  import opened Passes
  import opened Runs
  import Decimal
  import NginxRouter
  import RouteRouter
  import Traffic
  import Workload

  // ---- Workload ----

  /** The canary's copy of a target: one replica, the same pods but for the revision label, which its
      selector asks for too. */
  ghost predicate IsCanaryCopy(d: DeploymentSpec, t: Deployment) {
    && d.replicas == Some(1)
    && d.template.podSpec == t.spec.template.podSpec && d.rest == t.spec.rest
    && d.template.labels.Keys == t.spec.template.labels.Keys + {"kanary.io/revision"}
    && d.template.labels["kanary.io/revision"] == "canary"
    && (forall key | key in t.spec.template.labels && key != "kanary.io/revision" ::
          d.template.labels[key] == t.spec.template.labels[key])
    && d.selector.Some? && d.selector.value.matchExpressions == []
    && d.selector.value.matchLabels == Some(Workload.MatchLabels(t)["kanary.io/revision" := "canary"])
  }

  lemma CanaryDeploymentIsCopy(t: Deployment)
    ensures IsCanaryCopy(Workload.CanaryDeploymentSpec(t), t)
  {
  }

  /** The one port of a derived Service: a numeric target port counts as a number, another as the name
      of a port, and the Service's own port stands in for none. */
  lemma PortsOfService(c: Canary)
    ensures |Workload.Ports(c)| == 1 && Workload.Ports(c)[0].port == c.spec.service.port
    ensures c.spec.service.targetPort == "" ==> Workload.Ports(c)[0].targetPort == Number(c.spec.service.port)
    ensures forall n: int | 0 <= n < 65536 && c.spec.service.targetPort == Decimal.Itoa(n) ::
              Workload.Ports(c)[0].targetPort == Number(n)
    ensures c.spec.service.targetPort != "" && !('0' <= c.spec.service.targetPort[|c.spec.service.targetPort| - 1] <= '9') ==>
      Workload.Ports(c)[0].targetPort == Named(c.spec.service.targetPort)
  {
    forall n: int | 0 <= n < 65536 && c.spec.service.targetPort == Decimal.Itoa(n)
      ensures Workload.Ports(c)[0].targetPort == Number(n)
    {
      Decimal.ParseIntRoundTrip(n, Decimal.MIN_INT64, Decimal.MAX_INT64);
    }
    if c.spec.service.targetPort != "" && !('0' <= c.spec.service.targetPort[|c.spec.service.targetPort| - 1] <= '9') {
      NotADigitAtTheEnd(c.spec.service.targetPort);
    }
  }

  lemma NotADigitAtTheEnd(s: string)
    requires s != "" && !('0' <= s[|s| - 1] <= '9')
    ensures Decimal.ParseInt(s, Decimal.MIN_INT64, Decimal.MAX_INT64) == None
  {
  }

  /** What the stable Service is after the write: created for the target's pods if it was missing, given
      the Canary's ports if it is managed, and otherwise left alone. */
  lemma StableServiceIs(w: World, k: Key, c: Canary, t: Deployment)
    ensures var key, w' := Key(k.ns, c.spec.target.name), Workload.EnsuredStableService(w, k, c, t);
      && key in w'.services
      && if key !in w.services then
           w'.services[key].selector == Workload.MatchLabels(t) && w'.services[key].ports == Workload.Ports(c)
         else if "kanary.io/managed" in w.services[key].labels && w.services[key].labels["kanary.io/managed"] == "true" then
           w'.services[key] == w.services[key].(ports := Workload.Ports(c))
         else w'.services[key] == w.services[key]
  {
  }

  // ---- Ownership ----

  /** The labels of a derived object, and its owner. */
  ghost predicate Marked(k: Key, labels: Labels, owner: Option<Key>) {
    && owner == Some(k)
    && "kanary.io/managed" in labels && labels["kanary.io/managed"] == "true"
    && "kanary.io/canary" in labels && labels["kanary.io/canary"] == k.name
  }

  /** Every Deployment a pass creates is marked as its Canary's, and owned by it; */
  lemma CreatedDeploymentIsMarked(e: Effect, p: Pass, w: World, w': World)
    requires Apply(e, p, w) == Ok(w')
    ensures forall key | key in w'.deployments && key !in w.deployments ::
              Marked(p.key, w'.deployments[key].labels, w'.deployments[key].owner)
  {
    hide Decide, NextStatus, Workload.CanaryDeploymentSpec;
    if e != EnsureDeployment && e != DeleteDeployment {
      WriteTouchesOneKind(e, p, w, w');
    }
  }

  /** so is every Service, */
  lemma CreatedServiceIsMarked(e: Effect, p: Pass, w: World, w': World)
    requires Apply(e, p, w) == Ok(w')
    ensures forall key | key in w'.services && key !in w.services ::
              Marked(p.key, w'.services[key].labels, w'.services[key].owner)
  {
    hide Decide, NextStatus, Workload.CanaryDeploymentSpec, Workload.Ports;
    if e != EnsureStableService && e != EnsureCanaryService && e != DeleteService {
      WriteTouchesOneKind(e, p, w, w');
    }
  }

  /** and every Ingress. */
  lemma CreatedIngressIsMarked(e: Effect, p: Pass, w: World, w': World)
    requires Apply(e, p, w) == Ok(w')
    ensures forall key | key in w'.ingresses && key !in w.ingresses ::
              Marked(p.key, w'.ingresses[key].labels, w'.ingresses[key].owner)
  {
    hide Decide, NextStatus;
    if e == RouteTraffic {
      CreatedSiblingIsMarked(w, p.key, p.c, Decide(p).weight);
    } else if e != ResetTraffic {
      WriteTouchesOneKind(e, p, w, w');
    }
  }

  lemma CreatedSiblingIsMarked(w: World, k: Key, c: Canary, weight: int)
    requires Traffic.Reconciled(w, k, c, weight).Ok?
    ensures var w' := Traffic.Reconciled(w, k, c, weight).value;
      forall key | key in w'.ingresses && key !in w.ingresses ::
        Marked(k, w'.ingresses[key].labels, w'.ingresses[key].owner)
  {
    assert LABEL_MANAGED != LABEL_CANARY;
  }

  /** Of a Deployment only spec and labels are ever updated; owner and all the rest stay. */
  lemma UpdatedDeploymentKeepsTheRest(e: Effect, p: Pass, w: World, w': World)
    requires Apply(e, p, w) == Ok(w')
    ensures forall key | key in w.deployments && key in w'.deployments ::
              w'.deployments[key] == w.deployments[key].(spec := w'.deployments[key].spec, labels := w'.deployments[key].labels)
  {
    hide Decide, NextStatus, Workload.CanaryDeploymentSpec;
    if e != EnsureDeployment && e != DeleteDeployment {
      WriteTouchesOneKind(e, p, w, w');
    }
  }

  /** Of a Service only ports and selector are. */
  lemma UpdatedServiceKeepsTheRest(e: Effect, p: Pass, w: World, w': World)
    requires Apply(e, p, w) == Ok(w')
    ensures forall key | key in w.services && key in w'.services ::
              w'.services[key] == w.services[key].(ports := w'.services[key].ports, selector := w'.services[key].selector)
  {
    hide Decide, NextStatus, Workload.CanaryDeploymentSpec, Workload.Ports;
    if e != EnsureStableService && e != EnsureCanaryService && e != DeleteService {
      WriteTouchesOneKind(e, p, w, w');
    }
  }

  /** Of an Ingress, its own annotations and labels are. */
  lemma UpdatedIngressKeepsForeign(e: Effect, p: Pass, w: World, w': World)
    requires Apply(e, p, w) == Ok(w')
    ensures forall key | key in w.ingresses && key in w'.ingresses :: KeepsForeign(w.ingresses[key], w'.ingresses[key])
  {
    hide Decide, NextStatus;
    if e == RouteTraffic {
      RoutedKeepsForeign(w, p.key, p.c, Decide(p).weight);
    } else if e != ResetTraffic {
      WriteTouchesOneKind(e, p, w, w');
    }
  }

  /** A sibling Ingress that exists keeps its owner, and the labels and annotations of others. */
  ghost predicate KeepsForeign(before: Ingress, after: Ingress) {
    && after.owner == before.owner
    && (forall l | l in before.labels && l != "kanary.io/managed" && l != "kanary.io/canary" ::
          l in after.labels && after.labels[l] == before.labels[l])
    && (forall a | a in before.annotations && a != NginxRouter.ANNOTATION_CANARY && a != NginxRouter.ANNOTATION_WEIGHT ::
          a in after.annotations && after.annotations[a] == before.annotations[a])
  }

  lemma MergeKeepsForeign(before: Ingress, k: Key, c: Canary, stable: IngressSpec, weight: int)
    ensures KeepsForeign(before, NginxRouter.Merge(before, NginxRouter.Sibling(k, c, stable, weight)))
  {
    hide NginxRouter.RewriteSpec;
  }

  lemma RoutedKeepsForeign(w: World, k: Key, c: Canary, weight: int)
    requires Traffic.Reconciled(w, k, c, weight).Ok?
    ensures var w' := Traffic.Reconciled(w, k, c, weight).value;
      forall key | key in w.ingresses && key in w'.ingresses :: KeepsForeign(w.ingresses[key], w'.ingresses[key])
  {
    var w' := Traffic.Reconciled(w, k, c, weight).value;
    if c.spec.traffic.provider.Nginx? {
      var own, stable := NginxRouter.SiblingKey(k, c), w.ingresses[NginxRouter.StableKey(k, c)].spec;
      if own in w.ingresses {
        MergeKeepsForeign(w.ingresses[own], k, c, stable, weight);
      }
      hide NginxRouter.Merge, NginxRouter.Sibling;
      assert forall key | key in w.ingresses && key != own :: w'.ingresses[key] == w.ingresses[key];
    } else {
      assert w'.ingresses == w.ingresses;
    }
  }

  // ---- What is out, spelt out ----

  /** The traffic objects of a Canary while `weight` is routed: an nginx sibling that carries the two
      annotations, or the weights of the Route, 256 together. Either names the canary Service only. */
  ghost predicate TrafficObjects(w: World, k: Key, c: Canary, weight: int) {
    var svc := c.spec.target.name + "-canary";
    match c.spec.traffic.provider
    case Nginx =>
      c.spec.traffic.ingressRef.Some? &&
      var key := Key(k.ns, c.spec.traffic.ingressRef.value + "-kanary");
      && key in w.ingresses
      && "nginx.ingress.kubernetes.io/canary" in w.ingresses[key].annotations
      && w.ingresses[key].annotations["nginx.ingress.kubernetes.io/canary"] == "true"
      && "nginx.ingress.kubernetes.io/canary-weight" in w.ingresses[key].annotations
      && NginxRouter.ParsedWeight(w.ingresses[key].annotations["nginx.ingress.kubernetes.io/canary-weight"]) == weight
      && NginxRouter.SendsOnlyTo(w.ingresses[key].spec, svc)
    case OpenShiftRoute =>
      c.spec.traffic.routeRef.Some? &&
      var key := Key(k.ns, c.spec.traffic.routeRef.value);
      && key in w.routes
      && w.routes[key].alternates == [Alternate("Service", svc, Some(weight * 256 / 100))]
      && w.routes[key].toWeight == Some(256 - weight * 256 / 100)
    case OtherProvider(_) => false
  }

  lemma RoutedInObjects(w: World, k: Key, c: Canary, weight: int)
    requires Traffic.Routed(w, k, c, weight)
    ensures TrafficObjects(w, k, c, weight) || (weight == 0 && c.spec.traffic.provider.Nginx?)
  {
  }

  /** A completed set-up, in the objects themselves: the canary Deployment is one replica of the target,
      its Service selects the canary's pods on the Canary's port, and the traffic objects carry the
      weight of the stored step. */
  lemma SetUpInObjects(engine: bool, k: Key, tr: seq<Sys>, i: nat, p: Pass)
    requires IsRun(engine, k, tr) && i + 1 < |tr| && Completes(tr[i], tr[i + 1], p) && SetsUp(p)
    ensures var w, name := tr[i + 1].w, Key(k.ns, p.c.spec.target.name + "-canary");
      && name in w.deployments && IsCanaryCopy(w.deployments[name].spec, p.t)
      && (p.c.spec.service.port != 0 ==>
            && name in w.services
            && w.services[name].selector == Workload.MatchLabels(p.t)["kanary.io/revision" := "canary"]
            && w.services[name].ports == Workload.Ports(p.c))
      && 0 <= NextStatus(p).index < |p.c.spec.strategy.steps|
      && var weight := p.c.spec.strategy.steps[NextStatus(p).index];
         TrafficObjects(w, k, p.c, weight) || (weight == 0 && p.c.spec.traffic.provider.Nginx?)
  {
    CompletedPassAgrees(engine, k, tr, i, p);
    CanaryDeploymentIsCopy(p.t);
    RoutedInObjects(tr[i + 1].w, k, p.c, NextStatus(p).weight);
  }

  // ---- Errors ----

  /** Why a weight cannot be routed: it is out of range, the reference is missing, or what it refers to. */
  lemma WhyRoutingFails(w: World, k: Key, c: Canary, weight: int)
    requires c.spec.traffic.provider == Nginx || c.spec.traffic.provider == OpenShiftRoute
    ensures var r := Traffic.Reconciled(w, k, c, weight);
      var reference := if c.spec.traffic.provider == Nginx then c.spec.traffic.ingressRef else c.spec.traffic.routeRef;
      && (r == Err(InvalidSpec) <==> reference == None || weight < 0 || weight > 100)
      && (r == Err(NotFound) <==>
            && reference.Some? && 0 <= weight <= 100
            && (if c.spec.traffic.provider == Nginx then Key(k.ns, reference.value) !in w.ingresses
                else Key(k.ns, reference.value) !in w.routes))
      && (r.Err? ==> r.error == InvalidSpec || r.error == NotFound)
  {
  }

  /** A Status needs the reference too; without an object to read, all traffic is stable. */
  lemma StatusWithoutObjects(w: World, k: Key, c: Canary)
    requires c.spec.traffic.provider == Nginx || c.spec.traffic.provider == OpenShiftRoute
    ensures var reference := if c.spec.traffic.provider == Nginx then c.spec.traffic.ingressRef else c.spec.traffic.routeRef;
      && (Traffic.ObservedStatus(w, k, c).Err? <==> reference == None)
      && (reference == None ==> Traffic.ObservedStatus(w, k, c) == Err(InvalidSpec))
      && (reference.Some? && Traffic.NoTraffic(w, k, c) ==> Traffic.ObservedStatus(w, k, c) == Ok(TrafficStatus(100, 0)))
  {
  }

  /** A canary workload cannot be built exactly if the target's selector has a nil map of match labels. */
  lemma WhyWorkloadFails(w: World, k: Key, c: Canary, t: Deployment)
    ensures var nilMap := t.spec.selector.Some? && t.spec.selector.value.matchLabels == None;
      && (Workload.EnsuredDeployment(w, k, c, t).Err? <==> nilMap)
      && (Workload.EnsuredCanaryService(w, k, c, t).Err? <==> nilMap)
  {
  }
}
