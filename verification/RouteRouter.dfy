/** internal/traffic/openshift: the weights are fields of the user's Route, out of 256. */
module RouteRouter {
  import opened Api
  import opened Cluster

  const MAX_WEIGHT: int := 256

  type Routes = map<Key, Route>

  function RouteKey(k: Key, c: Canary): Key
    requires c.spec.traffic.routeRef.Some?
  {
    Key(k.ns, c.spec.traffic.routeRef.value)
  }

  // ---- Specification ----

  /** The canary's share of 256. */
  function Split(pct: nat): nat {
    pct * MAX_WEIGHT / 100
  }

  function WithWeights(r: Route, svc: string, weight: nat): Route {
    r.(toWeight := Some(MAX_WEIGHT - Split(weight)),
       alternates := [Alternate("Service", svc, Some(Split(weight)))])
  }

  function WithoutCanary(r: Route): Route {
    r.(toWeight := Some(MAX_WEIGHT), alternates := [])
  }

  function Reconciled(routes: Routes, k: Key, c: Canary, weight: int): Result<Routes> {
    if c.spec.traffic.routeRef.None? || !(0 <= weight <= 100) then Err(InvalidSpec)
    else if RouteKey(k, c) !in routes then Err(NotFound)
    else Ok(routes[RouteKey(k, c) := WithWeights(routes[RouteKey(k, c)], CanaryServiceName(c), weight)])
  }

  function WasReset(routes: Routes, k: Key, c: Canary): Routes {
    if c.spec.traffic.routeRef.None? || RouteKey(k, c) !in routes then routes
    else routes[RouteKey(k, c) := WithoutCanary(routes[RouteKey(k, c)])]
  }

  /** The percentage a Route shows; a negative weight counts as 0 however division rounds it. */
  function ObservedWeight(r: Route): (w: int)
    ensures 0 <= w <= 100
  {
    if r.alternates == [] then 0
    else
      var raw := if r.alternates[0].weight.Some? then r.alternates[0].weight.value else 0;
      var pct := raw * 100 / MAX_WEIGHT;
      if pct < 0 then 0 else if pct > 100 then 100 else pct
  }

  function ObservedStatus(routes: Routes, k: Key, c: Canary): Result<TrafficStatus> {
    if c.spec.traffic.routeRef.None? then Err(InvalidSpec)
    else if RouteKey(k, c) !in routes then Ok(TrafficStatus(100, 0))
    else
      var w := ObservedWeight(routes[RouteKey(k, c)]);
      Ok(TrafficStatus(100 - w, w))
  }

  /** The percentage read back after `weight` was written. */
  function Rounded(weight: int): int {
    if weight % 25 == 0 then weight else weight - 1
  }

  // ---- Properties ----

  lemma WeightReadsBackRounded(r: Route, svc: string, weight: nat)
    requires weight <= 100
    ensures ObservedWeight(WithWeights(r, svc, weight)) == Rounded(weight)
    ensures WithWeights(r, svc, weight).toWeight == Some(MAX_WEIGHT - Split(weight)) && 0 <= Split(weight) <= MAX_WEIGHT
  {
    var q, m := weight / 25, weight % 25;
    assert weight == 25 * q + m;
    assert Split(weight) == 64 * q + m * 64 / 25;
    assert m * 64 / 25 * 100 / 256 == if m == 0 then 0 else m - 1;
    assert Split(weight) * 100 / 256 == 25 * q + m * 64 / 25 * 100 / 256;
  }

  lemma SplitIsStrictlyIncreasing(v: nat, w: nat)
    requires v < w
    ensures Split(v) < Split(w)
  {
    assert w * 256 >= v * 256 + 256;
  }

  lemma LastWeightOverwrites(routes: Routes, k: Key, c: Canary, v: int, weight: int)
    requires Reconciled(routes, k, c, v).Ok? && Reconciled(routes, k, c, weight).Ok?
    ensures Reconciled(Reconciled(routes, k, c, v).value, k, c, weight) == Reconciled(routes, k, c, weight)
  {
    var once, key := Reconciled(routes, k, c, v).value, RouteKey(k, c);
    var last := WithWeights(routes[key], CanaryServiceName(c), weight);
    assert WithWeights(once[key], CanaryServiceName(c), weight) == last;
    assert once[key := last] == routes[key := last];
  }

  lemma ResetUndoesOne(routes: Routes, k: Key, c: Canary, weight: int)
    requires Reconciled(routes, k, c, weight).Ok?
    ensures WasReset(Reconciled(routes, k, c, weight).value, k, c) == WasReset(routes, k, c)
  {
    var once, key := Reconciled(routes, k, c, weight).value, RouteKey(k, c);
    assert WithoutCanary(once[key]) == WithoutCanary(routes[key]);
    assert once[key := WithoutCanary(routes[key])] == routes[key := WithoutCanary(routes[key])];
  }

  /** What the Route's weights mean: the share of the stable backend, of 100. */
  function StableShare(r: Route): int
    requires r.toWeight.Some? && r.toWeight.value + CanaryWeight(r) > 0
  {
    r.toWeight.value * 100 / (r.toWeight.value + CanaryWeight(r))
  }

  /** The weights of the alternate backends together. */
  function CanaryWeight(r: Route): int {
    AlternatesWeight(r.alternates)
  }

  function AlternatesWeight(alternates: seq<Alternate>): int {
    if alternates == [] then 0
    else (if alternates[0].weight.Some? then alternates[0].weight.value else 0) + AlternatesWeight(alternates[1..])
  }

  /** After a weight is written the stable backend has the rest: the two weights are out of 256, and
      its share is exactly what is not meant for the canary. */
  lemma StableGetsTheRest(r: Route, svc: string, weight: nat)
    requires weight <= 100
    ensures var after := WithWeights(r, svc, weight);
      && after.toWeight.Some? && after.toWeight.value + CanaryWeight(after) == 256
      && after.alternates == [Alternate("Service", svc, Some(weight * 256 / 100))]
      && StableShare(after) == 100 - weight
  {
    var after := WithWeights(r, svc, weight);
    assert after.alternates[1..] == [];
    assert AlternatesWeight(after.alternates) == Split(weight);
    WeightReadsBackRounded(r, svc, weight);
    RestOfSplit(weight);
  }

  lemma RestOfSplit(weight: nat)
    requires weight <= 100
    ensures (256 - weight * 256 / 100) * 100 / 256 == 100 - weight
  {
    var q, m := weight / 25, weight % 25;
    assert weight == 25 * q + m;
    assert weight * 256 / 100 == 64 * q + m * 64 / 25;
    assert (256 - (64 * q + m * 64 / 25)) * 100 == 256 * (100 - 25 * q) - m * 64 / 25 * 100;
    assert m * 256 >= m * 64 / 25 * 100 > (m - 1) * 256;
  }

  /** After a Reset the stable backend is the only one, and it has weight. */
  lemma ResetGivesStableAll(r: Route)
    ensures var after := WithoutCanary(r);
      && after.toWeight == Some(256) && after.alternates == [] && after.rest == r.rest
      && StableShare(after) == 100
  {
  }

  /** What Status reports of any Route whatever, one that somebody else has weighted included: the
      first alternate's weight out of 256, kept between 0 and 100. */
  lemma ObservedIsClamped(r: Route)
    ensures r.alternates == [] || r.alternates[0].weight.None? ==> ObservedWeight(r) == 0
    ensures r.alternates != [] && r.alternates[0].weight.Some? ==>
      var raw := r.alternates[0].weight.value;
      && (raw <= 0 ==> ObservedWeight(r) == 0)
      && (raw >= 256 ==> ObservedWeight(r) == 100)
      && (0 <= raw <= 256 ==> ObservedWeight(r) * 256 <= raw * 100 < (ObservedWeight(r) + 1) * 256)
  {
  }

  // ---- The router's code ----

  function ReconcileWorld(w: World, k: Key, c: Canary, weight: int): Result<World> {
    match Reconciled(w.routes, k, c, weight)
    case Ok(routes) => Ok(w.(routes := routes))
    case Err(e) => Err(e)
  }

  method GetRoute(api: ApiServer, k: Key, c: Canary) returns (r: Result<Route>)
    requires c.spec.traffic.routeRef.Some?
    ensures match r
            case Ok(route) => RouteKey(k, c) in api.world.routes && api.world.routes[RouteKey(k, c)] == route
            case Err(e) => (!api.reliable && e == Retryable) || (e == NotFound && RouteKey(k, c) !in api.world.routes)
  {
    r := Fetch(api.reliable, api.world.routes, RouteKey(k, c));
    if r.Err? && r.error != NotFound {
      r := Err(Retryable);
    }
  }

  method Reconcile(api: ApiServer, k: Key, c: Canary, weight: int) returns (err: Option<Error>)
    modifies api
    ensures Attempted(api.reliable, Retryable, ReconcileWorld(old(api.world), k, c, weight), old(api.world), api.world, err)
  {
    if c.spec.traffic.routeRef.None? || weight < 0 || weight > 100 {
      return Some(InvalidSpec);
    }
    var got := GetRoute(api, k, c);
    if got.Err? {
      return Some(got.error);
    }
    var route := got.value;
    var canaryW := weight * MAX_WEIGHT / 100;
    var stableW := MAX_WEIGHT - canaryW;
    route := route.(toWeight := Some(stableW));
    route := route.(alternates := [Alternate("Service", CanaryServiceName(c), Some(canaryW))]);
    err := api.PutRoute(RouteKey(k, c), route);
    err := if err.Some? then Some(Retryable) else None;
  }

  method Reset(api: ApiServer, k: Key, c: Canary) returns (err: Option<Error>)
    modifies api
    ensures Attempted(api.reliable, Retryable, Ok(old(api.world).(routes := WasReset(old(api.world).routes, k, c))),
                      old(api.world), api.world, err)
  {
    if c.spec.traffic.routeRef.None? {
      return None;
    }
    var got := GetRoute(api, k, c);
    if got.Err? {
      return if got.error == NotFound then None else Some(got.error);
    }
    var route := got.value.(toWeight := Some(MAX_WEIGHT));
    route := route.(alternates := []);
    err := api.PutRoute(RouteKey(k, c), route);
    err := if err.Some? then Some(Retryable) else None;
  }

  method Status(api: ApiServer, k: Key, c: Canary) returns (r: Result<TrafficStatus>)
    ensures (!api.reliable && r == Err(Retryable)) || r == ObservedStatus(api.world.routes, k, c)
  {
    if c.spec.traffic.routeRef.None? {
      return Err(InvalidSpec);
    }
    var got := GetRoute(api, k, c);
    if got.Err? {
      return if got.error == NotFound then Ok(TrafficStatus(100, 0)) else Err(Retryable);
    }
    var w := ObservedWeight(got.value);
    r := Ok(TrafficStatus(100 - w, w));
  }
}
