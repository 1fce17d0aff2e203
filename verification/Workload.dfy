/** internal/workload: the canary Deployment and the two Services derived from the target. */
module Workload {
  import opened Api
  import opened Cluster
  import Decimal

  const REVISION_CANARY: string := "canary"

  // ---- Label selectors ----

  predicate Meets(r: Requirement, pod: Labels) {
    match r.op
    case In => r.key in pod && pod[r.key] in r.values
    case NotIn => r.key in pod ==> pod[r.key] !in r.values
    case Exists => r.key in pod
    case DoesNotExist => r.key !in pod
  }

  predicate HasLabels(wanted: Labels, pod: Labels) {
    forall key | key in wanted :: key in pod && pod[key] == wanted[key]
  }

  predicate Selects(sel: LabelSelector, pod: Labels) {
    && (sel.matchLabels.Some? ==> HasLabels(sel.matchLabels.value, pod))
    && forall r | r in sel.matchExpressions :: Meets(r, pod)
  }

  // ---- Object builders: specification ----

  function MatchLabels(t: Deployment): Labels {
    if t.spec.selector.Some? && t.spec.selector.value.matchLabels.Some?
    then t.spec.selector.value.matchLabels.value else map[]
  }

  /** Writing the revision label into the clone of a nil map panics. */
  predicate SelectorIsNilMap(t: Deployment) {
    t.spec.selector.Some? && t.spec.selector.value.matchLabels.None?
  }

  function OwnedLabels(k: Key): Labels {
    map[LABEL_MANAGED := "true", LABEL_CANARY := k.name]
  }

  function CanaryDeploymentSpec(t: Deployment): DeploymentSpec {
    t.spec.(
      replicas := Some(1),
      template := t.spec.template.(labels := t.spec.template.labels[LABEL_REVISION := REVISION_CANARY]),
      selector := Some(LabelSelector(Some(MatchLabels(t)[LABEL_REVISION := REVISION_CANARY]), [])))
  }

  function PortTarget(s: string, fallback: int): PortRef {
    if s == "" then Number(fallback)
    else match Decimal.ParseInt(s, Decimal.MIN_INT64, Decimal.MAX_INT64)
      case Some(i) => Number(ToInt32(i))
      case None => Named(s)
  }

  /** Go's conversion of an int to an int32. */
  function ToInt32(i: int): (r: int)
    ensures Decimal.MIN_INT32 <= r <= Decimal.MAX_INT32 && (r - i) % 0x1_0000_0000 == 0
    ensures Decimal.MIN_INT32 <= i <= Decimal.MAX_INT32 ==> r == i
  {
    (i + 0x8000_0000) % 0x1_0000_0000 - 0x8000_0000
  }

  function Ports(c: Canary): seq<ServicePort> {
    [ServicePort(c.spec.service.port, PortTarget(c.spec.service.targetPort, c.spec.service.port))]
  }

  function CanarySelector(t: Deployment): Labels {
    MatchLabels(t)[LABEL_REVISION := REVISION_CANARY]
  }

  // ---- Operations: specification ----

  function EnsuredDeployment(w: World, k: Key, c: Canary, t: Deployment): Result<World> {
    if SelectorIsNilMap(t) then Err(Panicked)
    else
      var key := CanaryKey(k, c);
      var d :=
        if key in w.deployments
        then w.deployments[key].(spec := CanaryDeploymentSpec(t), labels := OwnedLabels(k))
        else Deployment(OwnedLabels(k), map[], Some(k), 0, CanaryDeploymentSpec(t));
      Ok(w.(deployments := w.deployments[key := d]))
  }

  /** A Service of the target's name is created if missing and otherwise touched only if managed. */
  function EnsuredStableService(w: World, k: Key, c: Canary, t: Deployment): World {
    var key := TargetKey(k, c);
    if key !in w.services then
      w.(services := w.services[key := Service(OwnedLabels(k), Some(k), MatchLabels(t), Ports(c), "")])
    else if Lookup(w.services[key].labels, LABEL_MANAGED) != "true" then w
    else w.(services := w.services[key := w.services[key].(ports := Ports(c))])
  }

  function EnsuredCanaryService(w: World, k: Key, c: Canary, t: Deployment): Result<World> {
    if SelectorIsNilMap(t) then Err(Panicked)
    else
      var key := CanaryKey(k, c);
      var s :=
        if key in w.services then w.services[key].(ports := Ports(c), selector := CanarySelector(t))
        else Service(OwnedLabels(k), Some(k), CanarySelector(t), Ports(c), "");
      Ok(w.(services := w.services[key := s]))
  }

  // ---- Selector algebra ----

  /** The canary Deployment's selector matches the pods of its own template, whatever match
      expressions the target had: they are not carried over. */
  lemma CanarySelectsItsOwnPods(t: Deployment)
    requires HasLabels(MatchLabels(t), t.spec.template.labels)
    ensures Selects(CanaryDeploymentSpec(t).selector.value, CanaryDeploymentSpec(t).template.labels)
  {
  }

  /** The pods the canary Service should get: the target's that carry the canary revision. */
  predicate TargetCanaryPod(t: Deployment, pod: Labels)
    requires t.spec.selector.Some?
  {
    Selects(t.spec.selector.value, pod) && LABEL_REVISION in pod && pod[LABEL_REVISION] == REVISION_CANARY
  }

  /** Every pod that carries the labels `m` meets `r`. */
  predicate Implied(r: Requirement, m: Labels) {
    match r.op
    case In => r.key in m && m[r.key] in r.values
    case NotIn => r.values == {} || (r.key in m && m[r.key] !in r.values)
    case Exists => r.key in m
    case DoesNotExist => false
  }

  lemma ImpliedIsMet(r: Requirement, m: Labels, pod: Labels)
    requires Implied(r, m) && HasLabels(m, pod)
    ensures Meets(r, pod)
  {
  }

  /** A requirement that is not implied is missed by some pod that carries the labels. */
  lemma UnimpliedIsMissed(r: Requirement, m: Labels) returns (pod: Labels)
    requires !Implied(r, m)
    ensures HasLabels(m, pod) && !Meets(r, pod)
  {
    pod := m;
    if r.key !in m && r.op.NotIn? {
      var value :| value in r.values;
      pod := m[r.key := value];
    } else if r.key !in m && r.op.DoesNotExist? {
      pod := m[r.key := ""];
    }
  }

  /** The target's own match labels do not ask for another revision than the canary's. */
  predicate AdmitsCanaryRevision(t: Deployment) {
    LABEL_REVISION in MatchLabels(t) ==> MatchLabels(t)[LABEL_REVISION] == REVISION_CANARY
  }

  ghost predicate SelectsExactlyTheCanaryPods(t: Deployment)
    requires t.spec.selector.Some?
  {
    forall pod :: HasLabels(CanarySelector(t), pod) <==> TargetCanaryPod(t, pod)
  }

  /** The canary Service selects exactly those pods if and only if the target's match labels admit
      the canary revision and its match expressions, which are dropped, ask for nothing that the
      labels do not already grant. */
  lemma CanaryServiceSelection(t: Deployment)
    requires t.spec.selector.Some? && !SelectorIsNilMap(t)
    ensures SelectsExactlyTheCanaryPods(t)
       <==> AdmitsCanaryRevision(t) && forall r | r in t.spec.selector.value.matchExpressions :: Implied(r, CanarySelector(t))
  {
    var own, extended := MatchLabels(t), CanarySelector(t);
    assert extended[LABEL_REVISION] == REVISION_CANARY;
    if !AdmitsCanaryRevision(t) {
      assert HasLabels(extended, extended) && !TargetCanaryPod(t, extended);
    } else if r :| r in t.spec.selector.value.matchExpressions && !Implied(r, extended) {
      var pod := UnimpliedIsMissed(r, extended);
      assert HasLabels(extended, pod) && !TargetCanaryPod(t, pod);
    } else {
      forall pod
        ensures HasLabels(extended, pod) <==> TargetCanaryPod(t, pod)
      {
        LabelsOfCanaryPods(t, pod);
        if HasLabels(extended, pod) {
          forall r | r in t.spec.selector.value.matchExpressions
            ensures Meets(r, pod)
          {
            ImpliedIsMet(r, extended, pod);
          }
        }
      }
    }
  }

  lemma LabelsOfCanaryPods(t: Deployment, pod: Labels)
    requires AdmitsCanaryRevision(t)
    ensures HasLabels(CanarySelector(t), pod)
       <==> HasLabels(MatchLabels(t), pod) && LABEL_REVISION in pod && pod[LABEL_REVISION] == REVISION_CANARY
  {
    var own, extended := MatchLabels(t), CanarySelector(t);
    assert extended[LABEL_REVISION] == REVISION_CANARY;
    assert forall key | key in own :: key in extended && own[key] == extended[key];
  }

  /** A target that leaves out the pods marked "legacy": its canary Service takes one in. */
  lemma CanaryServiceTakesInAnExcludedPod() returns (t: Deployment, pod: Labels)
    ensures t.spec.selector.Some? && !SelectorIsNilMap(t) && HasLabels(MatchLabels(t), t.spec.template.labels)
    ensures Selects(t.spec.selector.value, t.spec.template.labels)
    ensures HasLabels(CanarySelector(t), pod) && !Selects(t.spec.selector.value, pod)
  {
    var app := map["app" := "web"];
    var expressions := [Requirement("legacy", DoesNotExist, {})];
    t := Deployment(map[], map[], None, 1,
                    DeploymentSpec(None, Some(LabelSelector(Some(app), expressions)), PodTemplate(app, ""), ""));
    pod := map["app" := "web", LABEL_REVISION := REVISION_CANARY, "legacy" := "yes"];
    assert CanarySelector(t) == map["app" := "web", LABEL_REVISION := REVISION_CANARY];
    assert !Meets(expressions[0], pod);
    assert LABEL_REVISION != "legacy" && LABEL_REVISION != "app" && "app" != "legacy";
  }

  /** The stable Service selects the canary's pods too, unless the target asks for another revision. */
  lemma StableServiceSelectsCanaryPods(t: Deployment)
    requires HasLabels(MatchLabels(t), t.spec.template.labels)
    ensures HasLabels(MatchLabels(t), CanaryDeploymentSpec(t).template.labels) <==> AdmitsCanaryRevision(t)
  {
    var own, pod := MatchLabels(t), CanaryDeploymentSpec(t).template.labels;
    assert pod[LABEL_REVISION] == REVISION_CANARY;
    assert forall key | key in own && key != LABEL_REVISION :: pod[key] == t.spec.template.labels[key];
  }

  // ---- The reconciler's code ----

  /** A Go map of labels: whoever holds it sees what is written into it. */
  class LabelMap {
    var entries: Labels

    constructor (m: Labels)
      ensures entries == m
    {
      entries := m;
    }
  }

  datatype SelectorRef = SelectorRef(matchLabels: LabelMap?, matchExpressions: seq<Requirement>)

  datatype SpecRef = SpecRef(
    replicas: Option<int>, selector: Option<SelectorRef>, labels: LabelMap?, podSpec: string, rest: string)

  function MapOf(l: LabelMap?): set<LabelMap> {
    if l == null then {} else {l}
  }

  /** The label maps a Deployment's spec holds. */
  function Maps(s: SpecRef): set<LabelMap> {
    MapOf(s.labels) + if s.selector.Some? then MapOf(s.selector.value.matchLabels) else {}
  }

  function Entries(l: LabelMap?): Option<Labels>
    reads l
  {
    if l == null then None else Some(l.entries)
  }

  function SpecValue(s: SpecRef): DeploymentSpec
    reads Maps(s)
  {
    DeploymentSpec(
      s.replicas,
      if s.selector.None? then None
      else Some(LabelSelector(Entries(s.selector.value.matchLabels), s.selector.value.matchExpressions)),
      PodTemplate(if s.labels == null then map[] else s.labels.entries, s.podSpec),
      s.rest)
  }

  /** A map of its own with the same entries; nil for nil. */
  method Clone(l: LabelMap?) returns (r: LabelMap?)
    ensures fresh(MapOf(r)) && Entries(r) == Entries(l)
  {
    r := null;
    if l != null {
      r := new LabelMap(l.entries);
    }
  }

  method DeepCopy(s: SpecRef) returns (copy: SpecRef)
    ensures fresh(Maps(copy)) && SpecValue(copy) == SpecValue(s)
    ensures copy.labels != null && copy.selector.Some? ==> copy.labels != copy.selector.value.matchLabels
  {
    var labels := Clone(s.labels);
    copy := s.(labels := labels);
    if s.selector.Some? {
      var matchLabels := Clone(s.selector.value.matchLabels);
      copy := copy.(selector := Some(SelectorRef(matchLabels, s.selector.value.matchExpressions)));
    }
  }

  /** The target as the controller holds it: label maps of its own, nil where there are no labels. */
  method Decode(d: DeploymentSpec) returns (s: SpecRef)
    ensures fresh(Maps(s)) && SpecValue(s) == d
  {
    var labels: LabelMap? := null;
    if d.template.labels != map[] {
      labels := new LabelMap(d.template.labels);
    }
    s := SpecRef(d.replicas, None, labels, d.template.podSpec, d.rest);
    if d.selector.Some? {
      var matchLabels: LabelMap? := null;
      if d.selector.value.matchLabels.Some? {
        matchLabels := new LabelMap(d.selector.value.matchLabels.value);
      }
      s := s.(selector := Some(SelectorRef(matchLabels, d.selector.value.matchExpressions)));
    }
  }

  /** The canary's spec, written into a deep copy: no label map of the target is written to, nor
      shared with the result. */
  method CanarySpecOf(stable: SpecRef) returns (r: Result<SpecRef>)
    ensures SpecValue(stable) == old(SpecValue(stable))
    ensures r.Err? ==> r == Err(Panicked) && stable.selector.Some? && stable.selector.value.matchLabels == null
    ensures r.Ok? ==> !(stable.selector.Some? && stable.selector.value.matchLabels == null)
    ensures r.Ok? ==> fresh(Maps(r.value))
    ensures r.Ok? ==> forall t: Deployment | t.spec == SpecValue(stable) :: SpecValue(r.value) == CanaryDeploymentSpec(t)
  {
    var spec := DeepCopy(stable);
    spec := spec.(replicas := Some(1));
    if spec.labels == null {
      var none := new LabelMap(map[]);
      spec := spec.(labels := none);
    }
    spec.labels.entries := spec.labels.entries[LABEL_REVISION := REVISION_CANARY];
    var sel: LabelMap?;
    if spec.selector.None? {
      sel := new LabelMap(map[]);
    } else {
      sel := Clone(spec.selector.value.matchLabels);
    }
    spec := spec.(selector := Some(SelectorRef(sel, [])));
    if sel == null {
      return Err(Panicked);
    }
    sel.entries := sel.entries[LABEL_REVISION := REVISION_CANARY];
    r := Ok(spec);
  }

  method BuildCanaryDeployment(k: Key, stable: Deployment) returns (r: Result<Deployment>)
    ensures r == if SelectorIsNilMap(stable) then Err(Panicked)
                 else Ok(Deployment(OwnedLabels(k), map[], Some(k), 0, CanaryDeploymentSpec(stable)))
  {
    var decoded := Decode(stable.spec);
    var spec := CanarySpecOf(decoded);
    if spec.Err? {
      return Err(spec.error);
    }
    r := Ok(Deployment(map[LABEL_MANAGED := "true", LABEL_CANARY := k.name], map[], Some(k), 0, SpecValue(spec.value)));
  }

  /** A Service's selector starts from a clone of the target's match labels, or from an empty map. */
  method SelectorOf(stable: SpecRef) returns (sel: LabelMap?)
    ensures fresh(MapOf(sel))
    ensures Entries(sel) == if stable.selector.None? then Some(map[]) else Entries(stable.selector.value.matchLabels)
  {
    if stable.selector.None? {
      sel := new LabelMap(map[]);
    } else {
      sel := Clone(stable.selector.value.matchLabels);
    }
  }

  /** Reading a nil map is reading an empty one. */
  method BuildStableService(k: Key, c: Canary, stable: Deployment) returns (s: Service)
    ensures s == Service(OwnedLabels(k), Some(k), MatchLabels(stable), Ports(c), "")
  {
    var decoded := Decode(stable.spec);
    var sel := SelectorOf(decoded);
    s := Service(map[LABEL_MANAGED := "true", LABEL_CANARY := k.name], Some(k),
                 if sel == null then map[] else sel.entries, Ports(c), "");
  }

  method BuildCanaryService(k: Key, c: Canary, stable: Deployment) returns (r: Result<Service>)
    ensures r == if SelectorIsNilMap(stable) then Err(Panicked)
                 else Ok(Service(OwnedLabels(k), Some(k), CanarySelector(stable), Ports(c), ""))
  {
    var decoded := Decode(stable.spec);
    var sel := SelectorOf(decoded);
    if sel == null {
      return Err(Panicked);
    }
    sel.entries := sel.entries[LABEL_REVISION := REVISION_CANARY];
    r := Ok(Service(map[LABEL_MANAGED := "true", LABEL_CANARY := k.name], Some(k), sel.entries, Ports(c), ""));
  }

  method EnsureCanaryDeployment(api: ApiServer, k: Key, c: Canary, stable: Deployment) returns (err: Option<Error>)
    modifies api
    ensures Attempted(api.reliable, Retryable, EnsuredDeployment(old(api.world), k, c, stable), old(api.world), api.world, err)
  {
    var want := BuildCanaryDeployment(k, stable);
    if want.Err? {
      return Some(want.error);
    }
    var got := Fetch(api.reliable, api.world.deployments, CanaryKey(k, c));
    if got == Err(NotFound) {
      err := api.PutDeployment(CanaryKey(k, c), want.value);
    } else if got.Err? {
      return Some(Retryable);
    } else {
      var d := got.value.(spec := want.value.spec);
      d := d.(labels := want.value.labels);
      err := api.PutDeployment(CanaryKey(k, c), d);
    }
    err := if err.Some? then Some(Retryable) else None;
  }

  method EnsureStableService(api: ApiServer, k: Key, c: Canary, stable: Deployment) returns (err: Option<Error>)
    modifies api
    ensures Attempted(api.reliable, Retryable, Ok(EnsuredStableService(old(api.world), k, c, stable)), old(api.world), api.world, err)
  {
    var want := BuildStableService(k, c, stable);
    var got := Fetch(api.reliable, api.world.services, TargetKey(k, c));
    if got == Err(NotFound) {
      err := api.PutService(TargetKey(k, c), want);
    } else if got.Err? {
      return Some(Retryable);
    } else {
      if Lookup(got.value.labels, LABEL_MANAGED) != "true" {
        return None;
      }
      err := api.PutService(TargetKey(k, c), got.value.(ports := want.ports));
    }
    err := if err.Some? then Some(Retryable) else None;
  }

  method EnsureCanaryService(api: ApiServer, k: Key, c: Canary, stable: Deployment) returns (err: Option<Error>)
    modifies api
    ensures Attempted(api.reliable, Retryable, EnsuredCanaryService(old(api.world), k, c, stable), old(api.world), api.world, err)
  {
    var want := BuildCanaryService(k, c, stable);
    if want.Err? {
      return Some(want.error);
    }
    var got := Fetch(api.reliable, api.world.services, CanaryKey(k, c));
    if got == Err(NotFound) {
      err := api.PutService(CanaryKey(k, c), want.value);
    } else if got.Err? {
      return Some(Retryable);
    } else {
      var s := got.value.(ports := want.value.ports);
      s := s.(selector := want.value.selector);
      err := api.PutService(CanaryKey(k, c), s);
    }
    err := if err.Some? then Some(Retryable) else None;
  }

  method CleanupDeployment(api: ApiServer, k: Key, c: Canary) returns (err: Option<Error>)
    modifies api
    ensures Attempted(api.reliable, Retryable, Ok(old(api.world).(deployments := old(api.world).deployments - {CanaryKey(k, c)})),
                      old(api.world), api.world, err)
  {
    err := api.DeleteDeployment(CanaryKey(k, c));
    err := if err.Some? then Some(Retryable) else None;
  }

  method CleanupService(api: ApiServer, k: Key, c: Canary) returns (err: Option<Error>)
    modifies api
    ensures Attempted(api.reliable, Retryable, Ok(old(api.world).(services := old(api.world).services - {CanaryKey(k, c)})),
                      old(api.world), api.world, err)
  {
    err := api.DeleteService(CanaryKey(k, c));
    err := if err.Some? then Some(Retryable) else None;
  }
}
