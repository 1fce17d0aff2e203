/** internal/traffic: one contract, dispatched on the Canary's provider. */
module Traffic {
  import opened Api
  import opened Cluster
  import Decimal
  import NginxRouter
  import RouteRouter

  predicate Supported(c: Canary) {
    c.spec.traffic.provider.Nginx? || c.spec.traffic.provider.OpenShiftRoute?
  }

  function Reconciled(w: World, k: Key, c: Canary, weight: int): Result<World> {
    match c.spec.traffic.provider
    case Nginx => NginxRouter.ReconcileWorld(w, k, c, weight)
    case OpenShiftRoute => RouteRouter.ReconcileWorld(w, k, c, weight)
    case OtherProvider(_) => Err(Unsupported)
  }

  function WasReset(w: World, k: Key, c: Canary): World {
    match c.spec.traffic.provider
    case Nginx => w.(ingresses := NginxRouter.WasReset(w.ingresses, k, c))
    case OpenShiftRoute => w.(routes := RouteRouter.WasReset(w.routes, k, c))
    case OtherProvider(_) => w
  }

  function ObservedStatus(w: World, k: Key, c: Canary): Result<TrafficStatus> {
    match c.spec.traffic.provider
    case Nginx => NginxRouter.ObservedStatus(w.ingresses, k, c)
    case OpenShiftRoute => RouteRouter.ObservedStatus(w.routes, k, c)
    case OtherProvider(_) => Err(Unsupported)
  }

  /** The share of traffic the canary gets right now; none while there is no router to ask. */
  function Live(w: World, k: Key, c: Canary): int {
    match ObservedStatus(w, k, c)
    case Ok(s) => s.canary
    case Err(_) => 0
  }

  /** The share observed after `weight` was written. */
  function Observed(c: Canary, weight: int): int {
    if c.spec.traffic.provider.OpenShiftRoute? then RouteRouter.Rounded(weight) else weight
  }

  /** The provider holds `weight` for this Canary, and sends it to the canary Service only. */
  ghost predicate Routed(w: World, k: Key, c: Canary, weight: int) {
    0 <= weight <= 100 &&
    match c.spec.traffic.provider
    case Nginx =>
      c.spec.traffic.ingressRef.Some? &&
      var key := NginxRouter.SiblingKey(k, c);
      && key in w.ingresses
      && Lookup(w.ingresses[key].annotations, NginxRouter.ANNOTATION_CANARY) == "true"
      && NginxRouter.ParsedWeight(Lookup(w.ingresses[key].annotations, NginxRouter.ANNOTATION_WEIGHT)) == weight
      && NginxRouter.SendsOnlyTo(w.ingresses[key].spec, CanaryServiceName(c))
    case OpenShiftRoute =>
      c.spec.traffic.routeRef.Some? &&
      var key := RouteRouter.RouteKey(k, c);
      && key in w.routes
      && w.routes[key].toWeight == Some(RouteRouter.MAX_WEIGHT - RouteRouter.Split(weight))
      && w.routes[key].alternates == [Alternate("Service", CanaryServiceName(c), Some(RouteRouter.Split(weight)))]
    case OtherProvider(_) => false
  }

  /** The provider holds nothing for this Canary: no sibling Ingress, no alternate backend. */
  ghost predicate NoTraffic(w: World, k: Key, c: Canary) {
    match c.spec.traffic.provider
    case Nginx => c.spec.traffic.ingressRef.Some? ==> NginxRouter.SiblingKey(k, c) !in w.ingresses
    case OpenShiftRoute =>
      c.spec.traffic.routeRef.Some? && RouteRouter.RouteKey(k, c) in w.routes ==>
        w.routes[RouteRouter.RouteKey(k, c)].alternates == []
    case OtherProvider(_) => true
  }

  /** All traffic goes to the stable side: besides there being nothing for the canary, the Route, which
      carries the weights of both, gives the stable backend its full weight. */
  ghost predicate AllToStable(w: World, k: Key, c: Canary) {
    && NoTraffic(w, k, c)
    && (c.spec.traffic.provider.OpenShiftRoute? && c.spec.traffic.routeRef.Some?
        && RouteRouter.RouteKey(k, c) in w.routes ==>
          w.routes[RouteRouter.RouteKey(k, c)].toWeight == Some(256) && w.routes[RouteRouter.RouteKey(k, c)].alternates == [])
  }

  lemma ResetGivesStableAll(w: World, k: Key, c: Canary)
    ensures AllToStable(WasReset(w, k, c), k, c)
  {
    if c.spec.traffic.routeRef.Some? && RouteRouter.RouteKey(k, c) in w.routes {
      RouteRouter.ResetGivesStableAll(w.routes[RouteRouter.RouteKey(k, c)]);
    }
  }

  lemma ReconcileRoutes(w: World, k: Key, c: Canary, weight: int)
    requires Reconciled(w, k, c, weight).Ok?
    ensures Routed(Reconciled(w, k, c, weight).value, k, c, weight)
  {
    if c.spec.traffic.provider.Nginx? {
      NginxRouter.WeightRoundTrip(weight);
      NginxRouter.RewriteIsExact(w.ingresses[NginxRouter.StableKey(k, c)].spec, CanaryServiceName(c));
      var after := Reconciled(w, k, c, weight).value.ingresses[NginxRouter.SiblingKey(k, c)];
      assert NginxRouter.ANNOTATION_CANARY != NginxRouter.ANNOTATION_WEIGHT;
      assert Lookup(after.annotations, NginxRouter.ANNOTATION_WEIGHT) == Decimal.Itoa(weight);
      assert Lookup(after.annotations, NginxRouter.ANNOTATION_CANARY) == "true";
    }
  }

  lemma RoutedShows(w: World, k: Key, c: Canary, weight: int)
    requires Routed(w, k, c, weight)
    ensures ObservedStatus(w, k, c) == Ok(TrafficStatus(100 - Observed(c, weight), Observed(c, weight)))
    ensures Live(w, k, c) == Observed(c, weight)
  {
    if c.spec.traffic.provider.OpenShiftRoute? {
      var r := w.routes[RouteRouter.RouteKey(k, c)];
      RouteRouter.WeightReadsBackRounded(r, CanaryServiceName(c), weight);
      assert r == RouteRouter.WithWeights(r, CanaryServiceName(c), weight);
    }
  }

  // ---- Histories of one router ----

  datatype Op = SetWeight(weight: int) | ResetTraffic

  function Run(w: World, k: Key, c: Canary, ops: seq<Op>): Result<World> {
    if ops == [] then Ok(w)
    else match Run(w, k, c, ops[..|ops| - 1])
      case Err(e) => Err(e)
      case Ok(w') =>
        match ops[|ops| - 1]
        case SetWeight(weight) => Reconciled(w', k, c, weight)
        case ResetTraffic => Ok(WasReset(w', k, c))
  }

  predicate RefPresent(c: Canary) {
    match c.spec.traffic.provider
    case Nginx => c.spec.traffic.ingressRef.Some?
    case OpenShiftRoute => c.spec.traffic.routeRef.Some?
    case OtherProvider(_) => false
  }

  /** Whatever came before, the router reports the last operation, and the shares sum to 100. */
  lemma LastOperationWins(w: World, k: Key, c: Canary, ops: seq<Op>)
    requires ops != [] && RefPresent(c) && Run(w, k, c, ops).Ok?
    ensures
      var canary := match ops[|ops| - 1] case SetWeight(weight) => Observed(c, weight) case ResetTraffic => 0;
      ObservedStatus(Run(w, k, c, ops).value, k, c) == Ok(TrafficStatus(100 - canary, canary))
  {
    hide Routed;
    var w' := Run(w, k, c, ops[..|ops| - 1]).value;
    match ops[|ops| - 1]
    case SetWeight(weight) =>
      ReconcileRoutes(w', k, c, weight);
      RoutedShows(Run(w, k, c, ops).value, k, c, weight);
    case ResetTraffic =>
  }

  /** After any history that ends with a Reset the stable side gets everything. */
  lemma LastResetGivesStableAll(w: World, k: Key, c: Canary, ops: seq<Op>)
    requires ops != [] && ops[|ops| - 1].ResetTraffic? && Run(w, k, c, ops).Ok?
    ensures AllToStable(Run(w, k, c, ops).value, k, c)
  {
    ResetGivesStableAll(Run(w, k, c, ops[..|ops| - 1]).value, k, c);
  }

  lemma ResetUndoesOne(w: World, k: Key, c: Canary, weight: int)
    requires Reconciled(w, k, c, weight).Ok?
    ensures WasReset(Reconciled(w, k, c, weight).value, k, c) == WasReset(w, k, c)
  {
    if c.spec.traffic.provider.Nginx? {
      NginxRouter.ResetUndoesOne(w.ingresses, k, c, weight);
    } else {
      RouteRouter.ResetUndoesOne(w.routes, k, c, weight);
    }
  }

  /** A Reset undoes any history: the cluster is as if only the Reset had happened. */
  lemma {:induction false} ResetUndoesEverything(w: World, k: Key, c: Canary, ops: seq<Op>)
    requires Run(w, k, c, ops).Ok?
    ensures WasReset(Run(w, k, c, ops).value, k, c) == WasReset(w, k, c)
  {
    if ops == [] {
      return;
    }
    var w' := Run(w, k, c, ops[..|ops| - 1]).value;
    ResetUndoesEverything(w, k, c, ops[..|ops| - 1]);
    if ops[|ops| - 1].SetWeight? {
      ResetUndoesOne(w', k, c, ops[|ops| - 1].weight);
    } else {
      ResetTwice(w', k, c);
    }
  }

  lemma ResetTwice(w: World, k: Key, c: Canary)
    ensures WasReset(WasReset(w, k, c), k, c) == WasReset(w, k, c)
  {
    assert WasReset(WasReset(w, k, c), k, c).routes == WasReset(w, k, c).routes;
  }

  /** Weights written on top of one another leave only the last one behind. */
  lemma LastWeightOverwrites(w: World, k: Key, c: Canary, v: int, weight: int)
    requires Reconciled(w, k, c, v).Ok? && Reconciled(w, k, c, weight).Ok?
    ensures Reconciled(Reconciled(w, k, c, v).value, k, c, weight) == Reconciled(w, k, c, weight)
  {
    if c.spec.traffic.provider.Nginx? {
      NginxRouter.LastWeightOverwrites(w.ingresses, k, c, v, weight);
    } else {
      RouteRouter.LastWeightOverwrites(w.routes, k, c, v, weight);
    }
  }

  // ---- Dispatch ----

  method Reconcile(api: ApiServer, k: Key, c: Canary, weight: int) returns (err: Option<Error>)
    requires Supported(c)
    modifies api
    ensures Attempted(api.reliable, Retryable, Reconciled(old(api.world), k, c, weight), old(api.world), api.world, err)
  {
    if c.spec.traffic.provider.Nginx? {
      err := NginxRouter.Reconcile(api, k, c, weight);
    } else {
      err := RouteRouter.Reconcile(api, k, c, weight);
    }
  }

  method Reset(api: ApiServer, k: Key, c: Canary) returns (err: Option<Error>)
    requires Supported(c)
    modifies api
    ensures Attempted(api.reliable, Retryable, Ok(WasReset(old(api.world), k, c)), old(api.world), api.world, err)
  {
    if c.spec.traffic.provider.Nginx? {
      err := NginxRouter.Reset(api, k, c);
    } else {
      err := RouteRouter.Reset(api, k, c);
    }
  }
}
