/** The API server as its clients see it. A write that reports `Unavailable` may have been
    lost, or may have been stored with only its acknowledgement lost. A reliable server does not
    report it. */
module Cluster {
  import opened Api

  datatype Fault = NoFault | RequestLost | AckLost

  /** The states a write from `before` to `want` may leave behind. */
  ghost predicate Wrote(reliable: bool, before: World, after: World, want: World, err: Option<Error>) {
    match err
    case None => after == want
    case Some(e) => !reliable && e == Unavailable && (after == before || after == want)
  }

  ghost predicate Fetched<T>(reliable: bool, objects: map<Key, T>, k: Key, r: Result<T>) {
    match r
    case Ok(v) => k in objects && objects[k] == v
    case Err(e) => (!reliable && e == Unavailable) || (e == NotFound && k !in objects)
  }

  method Fetch<T>(reliable: bool, objects: map<Key, T>, k: Key) returns (r: Result<T>)
    ensures Fetched(reliable, objects, k, r)
  {
    var up: bool := *;
    if !reliable && !up {
      return Err(Unavailable);
    }
    r := if k in objects then Ok(objects[k]) else Err(NotFound);
  }

  class ApiServer {
    var world: World
    const reliable: bool

    constructor (w: World, reliable: bool)
      ensures world == w && this.reliable == reliable
    {
      world, this.reliable := w, reliable;
    }

    method Commit(want: World) returns (err: Option<Error>)
      modifies this
      ensures Wrote(reliable, old(world), world, want, err)
    {
      var fault: Fault := *;
      if reliable {
        fault := NoFault;
      }
      if fault != RequestLost {
        world := want;
      }
      err := if fault == NoFault then None else Some(Unavailable);
    }

    method PutDeployment(k: Key, d: Deployment) returns (err: Option<Error>)
      modifies this
      ensures Wrote(reliable, old(world), world, old(world).(deployments := old(world).deployments[k := d]), err)
    {
      err := Commit(world.(deployments := world.deployments[k := d]));
    }

    method PutService(k: Key, s: Service) returns (err: Option<Error>)
      modifies this
      ensures Wrote(reliable, old(world), world, old(world).(services := old(world).services[k := s]), err)
    {
      err := Commit(world.(services := world.services[k := s]));
    }

    method PutIngress(k: Key, i: Ingress) returns (err: Option<Error>)
      modifies this
      ensures Wrote(reliable, old(world), world, old(world).(ingresses := old(world).ingresses[k := i]), err)
    {
      err := Commit(world.(ingresses := world.ingresses[k := i]));
    }

    method PutRoute(k: Key, r: Route) returns (err: Option<Error>)
      modifies this
      ensures Wrote(reliable, old(world), world, old(world).(routes := old(world).routes[k := r]), err)
    {
      err := Commit(world.(routes := world.routes[k := r]));
    }

    method PutCanary(k: Key, c: Canary) returns (err: Option<Error>)
      modifies this
      ensures Wrote(reliable, old(world), world, old(world).(canaries := old(world).canaries[k := c]), err)
    {
      err := Commit(world.(canaries := world.canaries[k := c]));
    }

    /** Deleting an absent object succeeds: the callers ignore NotFound. */
    method DeleteDeployment(k: Key) returns (err: Option<Error>)
      modifies this
      ensures Wrote(reliable, old(world), world, old(world).(deployments := old(world).deployments - {k}), err)
    {
      err := Commit(world.(deployments := world.deployments - {k}));
    }

    method DeleteService(k: Key) returns (err: Option<Error>)
      modifies this
      ensures Wrote(reliable, old(world), world, old(world).(services := old(world).services - {k}), err)
    {
      err := Commit(world.(services := world.services - {k}));
    }

    method DeleteIngress(k: Key) returns (err: Option<Error>)
      modifies this
      ensures Wrote(reliable, old(world), world, old(world).(ingresses := old(world).ingresses - {k}), err)
    {
      err := Commit(world.(ingresses := world.ingresses - {k}));
    }
  }

  /** How one operation of the controller may end. `want` is what the operation does on a
      cluster without faults: the new state, or the error the operation itself raises. `lost` is what
      it reports when a call to the server has failed it. */
  ghost predicate Attempted(reliable: bool, lost: Error, want: Result<World>, before: World, after: World, err: Option<Error>) {
    match err
    case None => want == Ok(after)
    case Some(e) =>
      if e == lost then !reliable && (after == before || want == Ok(after))
      else after == before && want == Err(e)
  }
}
