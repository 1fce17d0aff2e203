/** Passes of Canaries that are apart commute: it does not matter how they interleave. */
module Interleaving {
  import opened Api
  import opened Rollout
  import opened Passes
  import opened Frames
  import Analysis
  import NginxRouter
  import RouteRouter
  import Workload

  datatype Kind = Canaries | Deployments | Services | TrafficObjects

  function KindOf(e: Effect): Kind {
    match e
    case RouteTraffic | ResetTraffic => TrafficObjects
    case EnsureDeployment | DeleteDeployment => Deployments
    case EnsureStableService | EnsureCanaryService | DeleteService => Services
    case ClearCommands | PersistStatus => Canaries
  }

  /** `into`, with the objects of one kind taken from `from`. */
  function Take(kind: Kind, from: World, into: World): World {
    match kind
    case Canaries => into.(canaries := from.canaries)
    case Deployments => into.(deployments := from.deployments)
    case Services => into.(services := from.services)
    case TrafficObjects => into.(ingresses := from.ingresses, routes := from.routes)
  }

  function Lift(kind: Kind, r: Result<World>, into: World): Result<World> {
    match r
    case Err(e) => Err(e)
    case Ok(w) => Ok(Take(kind, w, into))
  }

  /** On `v` the write does what it does on `w`, and to objects of its own kind only. */
  ghost predicate Local(e: Effect, p: Pass, w: World, v: World) {
    && Apply(e, p, v) == Lift(KindOf(e), Apply(e, p, w), v)
    && (Apply(e, p, w).Ok? ==> Take(KindOf(e), Apply(e, p, w).value, w) == Apply(e, p, w).value)
  }

  lemma PatchingIsLocal(e: Effect, p: Pass, w: World, v: World)
    requires KindOf(e) == Canaries && Take(Canaries, w, v) == v
    ensures Local(e, p, w, v)
  {
  }

  lemma DeploymentWriteIsLocal(e: Effect, p: Pass, w: World, v: World)
    requires KindOf(e) == Deployments && Take(Deployments, w, v) == v
    ensures Local(e, p, w, v)
  {
  }

  lemma ServiceWriteIsLocal(e: Effect, p: Pass, w: World, v: World)
    requires KindOf(e) == Services && Take(Services, w, v) == v
    ensures Local(e, p, w, v)
  {
  }

  lemma TrafficWriteIsLocal(e: Effect, p: Pass, w: World, v: World)
    requires KindOf(e) == TrafficObjects && Take(TrafficObjects, w, v) == v
    ensures Local(e, p, w, v)
  {
  }

  /** A write reads and changes objects of its own kind only. */
  lemma WriteIsLocal(e: Effect, p: Pass, w: World, v: World)
    requires Take(KindOf(e), w, v) == v
    ensures Local(e, p, w, v)
  {
    match KindOf(e)
    case Canaries => PatchingIsLocal(e, p, w, v);
    case Deployments => DeploymentWriteIsLocal(e, p, w, v);
    case Services => ServiceWriteIsLocal(e, p, w, v);
    case TrafficObjects => TrafficWriteIsLocal(e, p, w, v);
  }

  /** The two writes may be done in either order: same success, same error, same end. */
  ghost predicate Commute(e: Effect, p: Pass, f: Effect, q: Pass, w: World)
    requires Apply(f, q, w).Ok?
  {
    var w' := Apply(f, q, w).value;
    match Apply(e, p, w)
    case Err(x) => Apply(e, p, w') == Err(x)
    case Ok(v) => Apply(e, p, w').Ok? && Apply(f, q, v) == Ok(Apply(e, p, w').value)
  }

  lemma DifferentKindsCommute(e: Effect, p: Pass, f: Effect, q: Pass, w: World)
    requires KindOf(e) != KindOf(f) && Apply(f, q, w).Ok?
    ensures Commute(e, p, f, q, w)
  {
    var w' := Apply(f, q, w).value;
    WriteIsLocal(f, q, w, w);
    TakeLeavesOthers(KindOf(f), KindOf(e), w', w);
    WriteIsLocal(e, p, w, w');
    if Apply(e, p, w).Ok? {
      var v := Apply(e, p, w).value;
      WriteIsLocal(e, p, w, w);
      TakeLeavesOthers(KindOf(e), KindOf(f), v, w);
      WriteIsLocal(f, q, w, v);
      TakesCommute(KindOf(e), KindOf(f), v, w', w);
    }
  }

  /** A cluster that differs from `w` in one kind of object is like `w` in the others. */
  lemma TakeLeavesOthers(kind: Kind, other: Kind, v: World, w: World)
    requires kind != other && Take(kind, v, w) == v
    ensures Take(other, w, v) == v
  {
  }

  lemma TakesCommute(kind: Kind, other: Kind, v: World, w': World, w: World)
    requires kind != other && Take(kind, v, w) == v && Take(other, w', w) == w'
    ensures Take(kind, v, w') == Take(other, w', v)
  {
  }

  function At<K, V>(m: map<K, V>, key: K): Option<V> {
    if key in m then Some(m[key]) else None
  }

  /** `m` with the entry at `key` replaced or removed. */
  function Put<K, V>(m: map<K, V>, key: K, entry: Option<V>): map<K, V> {
    match entry
    case None => m - {key}
    case Some(v) => m[key := v]
  }

  lemma PutsCommute<K, V>(m: map<K, V>, a: K, x: Option<V>, b: K, y: Option<V>)
    requires a != b
    ensures Put(Put(m, a, x), b, y) == Put(Put(m, b, y), a, x)
    ensures SameAt(m, Put(m, b, y), a)
  {
    assert Put(Put(m, a, x), b, y) == Put(Put(m, b, y), a, x);
  }

  lemma CanaryWritesCommute(e: Effect, p: Pass, f: Effect, q: Pass, w: World)
    requires KindOf(e) == KindOf(f) == Canaries && p.key != q.key && Apply(f, q, w).Ok?
    ensures Commute(e, p, f, q, w)
  {
    if Apply(e, p, w).Ok? {
      PutsCommute(w.canaries, p.key, At(Apply(e, p, w).value.canaries, p.key),
                  q.key, At(Apply(f, q, w).value.canaries, q.key));
    }
  }

  /** A write to a Deployment changes one entry, and what it does there depends on that entry only. */
  lemma DeploymentWriteIsPut(e: Effect, p: Pass, w: World, w': World)
    requires KindOf(e) == Deployments && SameAt(w.deployments, w'.deployments, CanaryKey(p.key, p.c))
    ensures
      var key := CanaryKey(p.key, p.c);
      match Apply(e, p, w)
      case Err(x) => Apply(e, p, w') == Err(x)
      case Ok(v) =>
        && v == w.(deployments := Put(w.deployments, key, At(v.deployments, key)))
        && Apply(e, p, w') == Ok(w'.(deployments := Put(w'.deployments, key, At(v.deployments, key))))
  {
  }

  lemma DeploymentWritesCommute(e: Effect, p: Pass, f: Effect, q: Pass, w: World)
    requires KindOf(e) == KindOf(f) == Deployments && Apart(p.key, p.c, q.key, q.c) && Apply(f, q, w).Ok?
    ensures Commute(e, p, f, q, w)
  {
    var a, b := CanaryKey(p.key, p.c), CanaryKey(q.key, q.c);
    var w' := Apply(f, q, w).value;
    KeysApart(p.key, p.c, q.key, q.c);
    DeploymentWriteIsPut(f, q, w, w);
    PutsCommute(w.deployments, a, None, b, At(w'.deployments, b));
    DeploymentWriteIsPut(e, p, w, w');
    if Apply(e, p, w).Ok? {
      var v := Apply(e, p, w).value;
      PutsCommute(w.deployments, b, None, a, At(v.deployments, a));
      DeploymentWriteIsPut(f, q, w, v);
      PutsCommute(w.deployments, a, At(v.deployments, a), b, At(w'.deployments, b));
    }
  }

  function ServiceKey(e: Effect, p: Pass): Key {
    if e == EnsureStableService then TargetKey(p.key, p.c) else CanaryKey(p.key, p.c)
  }

  /** The stable Service after the write, given the one before it. */
  function StableServiceAfter(p: Pass, before: Option<Service>): Service {
    match before
    case None => Service(Workload.OwnedLabels(p.key), Some(p.key), Workload.MatchLabels(p.t), Workload.Ports(p.c), "")
    case Some(s) => if Lookup(s.labels, LABEL_MANAGED) != "true" then s else s.(ports := Workload.Ports(p.c))
  }

  lemma StableServiceWriteIsPut(p: Pass, w: World)
    ensures
      var key := TargetKey(p.key, p.c);
      Workload.EnsuredStableService(w, p.key, p.c, p.t)
        == w.(services := w.services[key := StableServiceAfter(p, At(w.services, key))])
  {
    var key := TargetKey(p.key, p.c);
    if key in w.services {
      assert w.services[key := w.services[key]] == w.services;
    }
  }

  lemma ServiceWriteIsPut(e: Effect, p: Pass, w: World, w': World)
    requires KindOf(e) == Services && SameAt(w.services, w'.services, ServiceKey(e, p))
    ensures
      var key := ServiceKey(e, p);
      match Apply(e, p, w)
      case Err(x) => Apply(e, p, w') == Err(x)
      case Ok(v) =>
        && v == w.(services := Put(w.services, key, At(v.services, key)))
        && Apply(e, p, w') == Ok(w'.(services := Put(w'.services, key, At(v.services, key))))
  {
    if e == EnsureStableService {
      StableServiceWriteIsPut(p, w);
      StableServiceWriteIsPut(p, w');
    }
  }

  lemma ServiceWritesCommute(e: Effect, p: Pass, f: Effect, q: Pass, w: World)
    requires KindOf(e) == KindOf(f) == Services && Apart(p.key, p.c, q.key, q.c) && Apply(f, q, w).Ok?
    ensures Commute(e, p, f, q, w)
  {
    var a, b := ServiceKey(e, p), ServiceKey(f, q);
    var w' := Apply(f, q, w).value;
    KeysApart(p.key, p.c, q.key, q.c);
    ServiceWriteIsPut(f, q, w, w);
    PutsCommute(w.services, a, None, b, At(w'.services, b));
    ServiceWriteIsPut(e, p, w, w');
    if Apply(e, p, w).Ok? {
      var v := Apply(e, p, w).value;
      PutsCommute(w.services, b, None, a, At(v.services, a));
      ServiceWriteIsPut(f, q, w, v);
      PutsCommute(w.services, a, At(v.services, a), b, At(w'.services, b));
    }
  }

  predicate UsesNginx(p: Pass) {
    p.c.spec.traffic.provider.Nginx? && p.c.spec.traffic.ingressRef.Some?
  }

  predicate UsesRoute(p: Pass) {
    p.c.spec.traffic.provider.OpenShiftRoute? && p.c.spec.traffic.routeRef.Some?
  }

  /** Neither write can have an effect without a traffic object to act on. */
  lemma NoRefNoWrite(e: Effect, p: Pass, w: World, w': World)
    requires KindOf(e) == TrafficObjects && !UsesNginx(p) && !UsesRoute(p)
    ensures e == ResetTraffic ==> Apply(e, p, w) == Ok(w)
    ensures e == RouteTraffic ==> Apply(e, p, w).Err? && Apply(e, p, w) == Apply(e, p, w')
  {
  }

  lemma NginxWriteIsPut(e: Effect, p: Pass, w: World, w': World)
    requires KindOf(e) == TrafficObjects && UsesNginx(p)
    requires SameAt(w.ingresses, w'.ingresses, NginxRouter.SiblingKey(p.key, p.c))
    requires SameAt(w.ingresses, w'.ingresses, NginxRouter.StableKey(p.key, p.c))
    ensures
      var key := NginxRouter.SiblingKey(p.key, p.c);
      match Apply(e, p, w)
      case Err(x) => Apply(e, p, w') == Err(x)
      case Ok(v) =>
        && v == w.(ingresses := Put(w.ingresses, key, At(v.ingresses, key)))
        && Apply(e, p, w') == Ok(w'.(ingresses := Put(w'.ingresses, key, At(v.ingresses, key))))
  {
  }

  lemma RouteWriteIsPut(e: Effect, p: Pass, w: World, w': World)
    requires KindOf(e) == TrafficObjects && UsesRoute(p)
    requires SameAt(w.routes, w'.routes, RouteRouter.RouteKey(p.key, p.c))
    ensures
      var key := RouteRouter.RouteKey(p.key, p.c);
      match Apply(e, p, w)
      case Err(x) => Apply(e, p, w') == Err(x)
      case Ok(v) =>
        && v == w.(routes := Put(w.routes, key, At(v.routes, key)))
        && Apply(e, p, w') == Ok(w'.(routes := Put(w'.routes, key, At(v.routes, key))))
  {
    var key := RouteRouter.RouteKey(p.key, p.c);
    if e == ResetTraffic && key !in w.routes {
      assert w.routes - {key} == w.routes && w'.routes - {key} == w'.routes;
    }
  }

  lemma NginxWritesCommute(e: Effect, p: Pass, f: Effect, q: Pass, w: World)
    requires KindOf(e) == KindOf(f) == TrafficObjects && UsesNginx(p) && UsesNginx(q)
    requires Apart(p.key, p.c, q.key, q.c) && Apply(f, q, w).Ok?
    ensures Commute(e, p, f, q, w)
  {
    var a, b := NginxRouter.SiblingKey(p.key, p.c), NginxRouter.SiblingKey(q.key, q.c);
    var a', b' := NginxRouter.StableKey(p.key, p.c), NginxRouter.StableKey(q.key, q.c);
    var w' := Apply(f, q, w).value;
    KeysApart(p.key, p.c, q.key, q.c);
    NginxWriteIsPut(f, q, w, w);
    PutsCommute(w.ingresses, a, None, b, At(w'.ingresses, b));
    PutsCommute(w.ingresses, a', None, b, At(w'.ingresses, b));
    NginxWriteIsPut(e, p, w, w');
    if Apply(e, p, w).Ok? {
      var v := Apply(e, p, w).value;
      PutsCommute(w.ingresses, b, None, a, At(v.ingresses, a));
      PutsCommute(w.ingresses, b', None, a, At(v.ingresses, a));
      NginxWriteIsPut(f, q, w, v);
      PutsCommute(w.ingresses, a, At(v.ingresses, a), b, At(w'.ingresses, b));
    }
  }

  lemma RouteWritesCommute(e: Effect, p: Pass, f: Effect, q: Pass, w: World)
    requires KindOf(e) == KindOf(f) == TrafficObjects && UsesRoute(p) && UsesRoute(q)
    requires Apart(p.key, p.c, q.key, q.c) && Apply(f, q, w).Ok?
    ensures Commute(e, p, f, q, w)
  {
    var a, b := RouteRouter.RouteKey(p.key, p.c), RouteRouter.RouteKey(q.key, q.c);
    var w' := Apply(f, q, w).value;
    KeysApart(p.key, p.c, q.key, q.c);
    RouteWriteIsPut(f, q, w, w);
    PutsCommute(w.routes, a, None, b, At(w'.routes, b));
    RouteWriteIsPut(e, p, w, w');
    if Apply(e, p, w).Ok? {
      var v := Apply(e, p, w).value;
      PutsCommute(w.routes, b, None, a, At(v.routes, a));
      RouteWriteIsPut(f, q, w, v);
      PutsCommute(w.routes, a, At(v.routes, a), b, At(w'.routes, b));
    }
  }

  lemma TrafficWritesCommute(e: Effect, p: Pass, f: Effect, q: Pass, w: World)
    requires KindOf(e) == KindOf(f) == TrafficObjects && Apart(p.key, p.c, q.key, q.c) && Apply(f, q, w).Ok?
    ensures Commute(e, p, f, q, w)
  {
    var w' := Apply(f, q, w).value;
    if !UsesNginx(p) && !UsesRoute(p) {
      NoRefNoWrite(e, p, w, w');
      NoRefNoWrite(e, p, w', w);
    } else if !UsesNginx(q) && !UsesRoute(q) {
      NoRefNoWrite(f, q, w, w);
      if Apply(e, p, w).Ok? {
        NoRefNoWrite(f, q, Apply(e, p, w).value, w);
      }
    } else if UsesNginx(p) && UsesNginx(q) {
      NginxWritesCommute(e, p, f, q, w);
    } else if UsesRoute(p) && UsesRoute(q) {
      RouteWritesCommute(e, p, f, q, w);
    } else if UsesNginx(p) {
      MixedWritesCommute(e, p, f, q, w);
    } else {
      RouteThenNginxCommute(e, p, f, q, w);
    }
  }

  lemma MixedWritesCommute(e: Effect, p: Pass, f: Effect, q: Pass, w: World)
    requires KindOf(e) == KindOf(f) == TrafficObjects && UsesNginx(p) && UsesRoute(q) && Apply(f, q, w).Ok?
    ensures Commute(e, p, f, q, w)
  {
    RouteWriteIsPut(f, q, w, w);
    NginxWriteIsPut(e, p, w, Apply(f, q, w).value);
    if Apply(e, p, w).Ok? {
      RouteWriteIsPut(f, q, w, Apply(e, p, w).value);
    }
  }

  lemma RouteThenNginxCommute(e: Effect, p: Pass, f: Effect, q: Pass, w: World)
    requires KindOf(e) == KindOf(f) == TrafficObjects && UsesRoute(p) && UsesNginx(q) && Apply(f, q, w).Ok?
    ensures Commute(e, p, f, q, w)
  {
    NginxWriteIsPut(f, q, w, w);
    RouteWriteIsPut(e, p, w, Apply(f, q, w).value);
    if Apply(e, p, w).Ok? {
      NginxWriteIsPut(f, q, w, Apply(e, p, w).value);
    }
  }

  /** Any two writes of passes for Canaries that are apart commute. */
  lemma WritesCommute(e: Effect, p: Pass, f: Effect, q: Pass, w: World)
    requires Apart(p.key, p.c, q.key, q.c) && Apply(f, q, w).Ok?
    ensures Commute(e, p, f, q, w)
  {
    if KindOf(e) != KindOf(f) {
      DifferentKindsCommute(e, p, f, q, w);
    } else {
      match KindOf(e)
      case Canaries => CanaryWritesCommute(e, p, f, q, w);
      case Deployments => DeploymentWritesCommute(e, p, f, q, w);
      case Services => ServiceWritesCommute(e, p, f, q, w);
      case TrafficObjects => TrafficWritesCommute(e, p, f, q, w);
    }
  }

  /** A whole pass commutes with one write of another. */
  lemma {:induction false} PassCommutesWithWrite(p: Pass, n: nat, f: Effect, q: Pass, w: World)
    requires Apart(p.key, p.c, q.key, q.c) && Apply(f, q, w).Ok?
    ensures Apply(f, q, RunFrom(p, n, w)) == Ok(RunFrom(p, n, Apply(f, q, w).value))
    decreases |Plan(p)| - n
  {
    if n >= |Plan(p)| {
    } else {
      WritesCommute(Plan(p)[n], p, f, q, w);
      if Apply(Plan(p)[n], p, w).Ok? {
        PassCommutesWithWrite(p, n + 1, f, q, Apply(Plan(p)[n], p, w).value);
      }
    }
  }

  /** An error of one pass does not depend on how far the other has got. */
  lemma {:induction false} ErrorIsKept(p: Pass, n: nat, f: Effect, q: Pass, w: World)
    requires Apart(p.key, p.c, q.key, q.c) && Apply(f, q, w).Err?
    ensures Apply(f, q, RunFrom(p, n, w)) == Apply(f, q, w)
    decreases |Plan(p)| - n
  {
    if n >= |Plan(p)| || Apply(Plan(p)[n], p, w).Err? {
    } else {
      KeysApart(p.key, p.c, q.key, q.c);
      WritesCommute(f, q, Plan(p)[n], p, w);
      ErrorIsKept(p, n + 1, f, q, Apply(Plan(p)[n], p, w).value);
    }
  }

  lemma {:induction false} PassesCommute(p: Pass, q: Pass, n: nat, w: World)
    requires Apart(p.key, p.c, q.key, q.c)
    ensures RunFrom(q, n, RunFrom(p, 0, w)) == RunFrom(p, 0, RunFrom(q, n, w))
    decreases |Plan(q)| - n
  {
    if n >= |Plan(q)| {
    } else {
      if Apply(Plan(q)[n], q, w).Ok? {
        PassCommutesWithWrite(p, 0, Plan(q)[n], q, w);
        PassesCommute(p, q, n + 1, Apply(Plan(q)[n], q, w).value);
      } else {
        ErrorIsKept(p, 0, Plan(q)[n], q, w);
      }
    }
  }

  /** The writes of two passes in the order that `turns` gives: true for the next write of `p`, false
      for the next of `q`. A pass stops at its first error; after the last turn both are run to
      their end. */
  function Interleaved(p: Pass, n: nat, q: Pass, m: nat, turns: seq<bool>, w: World): World
    decreases |turns|
  {
    if turns == [] then RunFrom(q, m, RunFrom(p, n, w))
    else if turns[0] then
      if n < |Plan(p)| && Apply(Plan(p)[n], p, w).Ok? then
        Interleaved(p, n + 1, q, m, turns[1..], Apply(Plan(p)[n], p, w).value)
      else Interleaved(p, |Plan(p)|, q, m, turns[1..], w)
    else
      if m < |Plan(q)| && Apply(Plan(q)[m], q, w).Ok? then
        Interleaved(p, n, q, m + 1, turns[1..], Apply(Plan(q)[m], q, w).value)
      else Interleaved(p, n, q, |Plan(q)|, turns[1..], w)
  }

  /** One write of `q`, or the end of `q`, may as well come after all of `p`. */
  lemma TurnMayWait(p: Pass, n: nat, q: Pass, m: nat, w: World)
    requires Apart(p.key, p.c, q.key, q.c)
    ensures RunFrom(q, m, RunFrom(p, n, w)) ==
      if m < |Plan(q)| && Apply(Plan(q)[m], q, w).Ok?
      then RunFrom(q, m + 1, RunFrom(p, n, Apply(Plan(q)[m], q, w).value))
      else RunFrom(q, |Plan(q)|, RunFrom(p, n, w))
  {
    if m < |Plan(q)| {
      if Apply(Plan(q)[m], q, w).Ok? {
        PassCommutesWithWrite(p, n, Plan(q)[m], q, w);
      } else {
        ErrorIsKept(p, n, Plan(q)[m], q, w);
      }
    }
  }

  /** Every interleaving of two passes of Canaries that are apart ends as one after the other. */
  lemma {:induction false} InterleavingIsImmaterial(p: Pass, n: nat, q: Pass, m: nat, turns: seq<bool>, w: World)
    requires Apart(p.key, p.c, q.key, q.c)
    ensures Interleaved(p, n, q, m, turns, w) == RunFrom(q, m, RunFrom(p, n, w))
    decreases |turns|
  {
    if turns == [] {
    } else if turns[0] {
      if n < |Plan(p)| && Apply(Plan(p)[n], p, w).Ok? {
        InterleavingIsImmaterial(p, n + 1, q, m, turns[1..], Apply(Plan(p)[n], p, w).value);
      } else {
        InterleavingIsImmaterial(p, |Plan(p)|, q, m, turns[1..], w);
      }
    } else {
      TurnMayWait(p, n, q, m, w);
      if m < |Plan(q)| && Apply(Plan(q)[m], q, w).Ok? {
        InterleavingIsImmaterial(p, n, q, m + 1, turns[1..], Apply(Plan(q)[m], q, w).value);
      } else {
        InterleavingIsImmaterial(p, n, q, |Plan(q)|, turns[1..], w);
      }
    }
  }

  lemma {:induction false} OtherPassIsUnseen(k: Key, q: Pass, n: nat, w: World)
    requires k in w.canaries && Apart(k, w.canaries[k], q.key, q.c)
    ensures var w' := RunFrom(q, n, w);
      && k in w'.canaries && w'.canaries[k] == w.canaries[k]
      && SameAt(w.deployments, w'.deployments, TargetKey(k, w.canaries[k]))
      && SameDerived(w, w', k, w.canaries[k])
    decreases |Plan(q)| - n
  {
    if n >= |Plan(q)| || Apply(Plan(q)[n], q, w).Err? {
    } else {
      OthersAreEnvironment(k, Plan(q)[n], q, w, Apply(Plan(q)[n], q, w).value);
      OtherPassIsUnseen(k, q, n + 1, Apply(Plan(q)[n], q, w).value);
    }
  }

  /** What a pass of another Canary has written does not change which pass begins. */
  lemma SamePassBegins(engine: bool, w: World, k: Key, q: Pass, replies: nat -> Analysis.Reply)
    requires k in w.canaries && Apart(k, w.canaries[k], q.key, q.c)
    ensures Begin(engine, RunFrom(q, 0, w), k, replies) == Begin(engine, w, k, replies)
  {
    OtherPassIsUnseen(k, q, 0, w);
  }

  /** Passes of two Canaries that are apart end in the same cluster whichever goes first, and so
      does every interleaving of their writes. */
  lemma CanariesDoNotInterfere(engine: bool, w: World, k: Key, l: Key, replies: nat -> Analysis.Reply,
                               replies': nat -> Analysis.Reply, turns: seq<bool>)
    requires k in w.canaries && l in w.canaries && Apart(k, w.canaries[k], l, w.canaries[l])
    ensures QuietPass(engine, QuietPass(engine, w, k, replies), l, replies')
         == QuietPass(engine, QuietPass(engine, w, l, replies'), k, replies)
    ensures var p, q := Begin(engine, w, k, replies), Begin(engine, w, l, replies');
      p.Some? && q.Some? ==>
        Interleaved(p.value, 0, q.value, 0, turns, w) == QuietPass(engine, QuietPass(engine, w, k, replies), l, replies')
  {
    KeysApart(k, w.canaries[k], l, w.canaries[l]);
    var p, q := Begin(engine, w, k, replies), Begin(engine, w, l, replies');
    if p.Some? {
      SamePassBegins(engine, w, l, p.value, replies');
    }
    if q.Some? {
      SamePassBegins(engine, w, k, q.value, replies);
    }
    if p.Some? && q.Some? {
      PassesCommute(p.value, q.value, 0, w);
      InterleavingIsImmaterial(p.value, 0, q.value, 0, turns, w);
    }
  }
}
