/** internal/traffic/nginx: the weight is an annotation on a sibling of the stable Ingress. */
module NginxRouter {
  import opened Api
  import opened Cluster
  import Decimal

  const ANNOTATION_CANARY: string := "nginx.ingress.kubernetes.io/canary"
  const ANNOTATION_WEIGHT: string := "nginx.ingress.kubernetes.io/canary-weight"

  type Ingresses = map<Key, Ingress>

  function StableKey(k: Key, c: Canary): Key
    requires c.spec.traffic.ingressRef.Some?
  {
    Key(k.ns, c.spec.traffic.ingressRef.value)
  }

  function SiblingName(stableName: string): string {
    stableName + "-kanary"
  }

  function SiblingKey(k: Key, c: Canary): Key
    requires c.spec.traffic.ingressRef.Some?
  {
    Key(k.ns, SiblingName(c.spec.traffic.ingressRef.value))
  }

  // ---- Specification ----

  function RewriteBackend(b: Backend, svc: string): Backend {
    match b.service
    case None => b
    case Some(s) => b.(service := Some(s.(name := svc)))
  }

  function RewritePath(p: HttpPath, svc: string): HttpPath {
    p.(backend := RewriteBackend(p.backend, svc))
  }

  function RewriteRule(r: IngressRule, svc: string): IngressRule {
    match r.http
    case None => r
    case Some(paths) =>
      r.(http := Some(seq(|paths|, j requires 0 <= j < |paths| => RewritePath(paths[j], svc))))
  }

  function RewriteSpec(spec: IngressSpec, svc: string): IngressSpec {
    spec.(
      defaultBackend :=
        match spec.defaultBackend
        case None => None
        case Some(b) => Some(RewriteBackend(b, svc)),
      rules := seq(|spec.rules|, i requires 0 <= i < |spec.rules| => RewriteRule(spec.rules[i], svc)))
  }

  function Sibling(k: Key, c: Canary, stable: IngressSpec, weight: int): Ingress {
    Ingress(
      map[LABEL_MANAGED := "true", LABEL_CANARY := k.name],
      map[ANNOTATION_CANARY := "true", ANNOTATION_WEIGHT := Decimal.Itoa(weight)],
      Some(k),
      RewriteSpec(stable, CanaryServiceName(c)))
  }

  /** An existing sibling keeps its owner and its foreign labels and annotations. */
  function Merge(existing: Ingress, desired: Ingress): Ingress {
    Ingress(existing.labels + desired.labels, existing.annotations + desired.annotations,
            existing.owner, desired.spec)
  }

  function Reconciled(ings: Ingresses, k: Key, c: Canary, weight: int): Result<Ingresses> {
    if c.spec.traffic.ingressRef.None? || !(0 <= weight <= 100) then Err(InvalidSpec)
    else if StableKey(k, c) !in ings then Err(NotFound)
    else
      var desired := Sibling(k, c, ings[StableKey(k, c)].spec, weight);
      var key := SiblingKey(k, c);
      Ok(ings[key := if key in ings then Merge(ings[key], desired) else desired])
  }

  function WasReset(ings: Ingresses, k: Key, c: Canary): Ingresses {
    if c.spec.traffic.ingressRef.None? then ings else ings - {SiblingKey(k, c)}
  }

  function ParsedWeight(raw: string): (w: int)
    ensures 0 <= w <= 100
  {
    match Decimal.ParseInt(raw, Decimal.MIN_INT32, Decimal.MAX_INT32)
    case None => 0
    case Some(w) => if 0 <= w <= 100 then w else 0
  }

  function ObservedStatus(ings: Ingresses, k: Key, c: Canary): Result<TrafficStatus> {
    if c.spec.traffic.ingressRef.None? then Err(InvalidSpec)
    else if SiblingKey(k, c) !in ings then Ok(TrafficStatus(100, 0))
    else
      var w := ParsedWeight(Lookup(ings[SiblingKey(k, c)].annotations, ANNOTATION_WEIGHT));
      Ok(TrafficStatus(100 - w, w))
  }

  // ---- Properties ----

  /** Every Service the sibling refers to is `svc`. */
  ghost predicate SendsOnlyTo(spec: IngressSpec, svc: string) {
    && (forall s :: spec.defaultBackend.Some? && spec.defaultBackend.value.service == Some(s) ==> s.name == svc)
    && forall i, j ::
         0 <= i < |spec.rules| && spec.rules[i].http.Some? && 0 <= j < |spec.rules[i].http.value|
         && spec.rules[i].http.value[j].backend.service.Some?
         ==> spec.rules[i].http.value[j].backend.service.value.name == svc
  }

  /** `a` and `b` differ at most in the Service name of their backends. */
  ghost predicate SameButServiceName(a: Backend, b: Backend) {
    && a.resource == b.resource
    && a.service.Some? == b.service.Some?
    && (a.service.Some? ==> a.service.value.port == b.service.value.port)
  }

  ghost predicate SamePaths(a: seq<HttpPath>, b: seq<HttpPath>) {
    |a| == |b| && forall j | 0 <= j < |a| ::
      a[j].path == b[j].path && a[j].pathType == b[j].pathType && SameButServiceName(a[j].backend, b[j].backend)
  }

  ghost predicate SameRule(a: IngressRule, b: IngressRule) {
    && a.host == b.host
    && a.http.Some? == b.http.Some?
    && (a.http.Some? ==> SamePaths(a.http.value, b.http.value))
  }

  /** `a` and `b` differ at most in the Service names of their backends. */
  ghost predicate SameButServiceNames(a: IngressSpec, b: IngressSpec) {
    && a.rest == b.rest
    && a.defaultBackend.Some? == b.defaultBackend.Some?
    && (a.defaultBackend.Some? ==> SameButServiceName(a.defaultBackend.value, b.defaultBackend.value))
    && |a.rules| == |b.rules|
    && forall i | 0 <= i < |a.rules| :: SameRule(a.rules[i], b.rules[i])
  }

  lemma RewriteIsExact(spec: IngressSpec, svc: string)
    ensures SendsOnlyTo(RewriteSpec(spec, svc), svc)
    ensures SameButServiceNames(RewriteSpec(spec, svc), spec)
  {
    var out := RewriteSpec(spec, svc);
    forall i | 0 <= i < |spec.rules|
      ensures out.rules[i] == RewriteRule(spec.rules[i], svc)
    {
    }
  }

  /** The two conditions pin the rewritten spec down. */
  lemma RewriteIsUnique(spec: IngressSpec, svc: string, other: IngressSpec)
    requires SendsOnlyTo(other, svc) && SameButServiceNames(other, spec)
    ensures other == RewriteSpec(spec, svc)
  {
    var out := RewriteSpec(spec, svc);
    forall i | 0 <= i < |spec.rules|
      ensures out.rules[i] == other.rules[i]
    {
      var r, o := spec.rules[i], other.rules[i];
      if r.http.Some? {
        forall j | 0 <= j < |r.http.value|
          ensures RewriteRule(r, svc).http.value[j] == o.http.value[j]
        {
          assert other.rules[i].http.value[j].backend.service.Some?
                 ==> other.rules[i].http.value[j].backend.service.value.name == svc;
        }
        assert RewriteRule(r, svc).http.value == o.http.value;
      }
    }
    assert out.rules == other.rules;
  }

  lemma MergeOverwrites(existing: Ingress, first: Ingress, last: Ingress)
    requires first.labels.Keys == last.labels.Keys && first.annotations.Keys == last.annotations.Keys
    requires first.owner == last.owner
    ensures Merge(Merge(existing, first), last) == Merge(existing, last)
    ensures Merge(first, last) == last
  {
    assert existing.labels + first.labels + last.labels == existing.labels + last.labels;
    assert existing.annotations + first.annotations + last.annotations == existing.annotations + last.annotations;
    assert first.labels + last.labels == last.labels && first.annotations + last.annotations == last.annotations;
  }

  lemma ResetUndoesOne(ings: Ingresses, k: Key, c: Canary, weight: int)
    requires Reconciled(ings, k, c, weight).Ok?
    ensures WasReset(Reconciled(ings, k, c, weight).value, k, c) == WasReset(ings, k, c)
  {
    assert Reconciled(ings, k, c, weight).value - {SiblingKey(k, c)} == ings - {SiblingKey(k, c)};
  }

  lemma LastWeightOverwrites(ings: Ingresses, k: Key, c: Canary, v: int, weight: int)
    requires Reconciled(ings, k, c, v).Ok? && Reconciled(ings, k, c, weight).Ok?
    ensures Reconciled(Reconciled(ings, k, c, v).value, k, c, weight) == Reconciled(ings, k, c, weight)
  {
    var key, stable := SiblingKey(k, c), StableKey(k, c);
    assert |key.name| == |stable.name| + 7;
    var d1, d2 := Sibling(k, c, ings[stable].spec, v), Sibling(k, c, ings[stable].spec, weight);
    var once := Reconciled(ings, k, c, v).value;
    var last := if key in ings then Merge(ings[key], d2) else d2;
    MergeOverwrites(if key in ings then ings[key] else d1, d1, d2);
    assert Merge(once[key], d2) == last;
    assert once[key := last] == ings[key := last];
  }

  lemma WeightRoundTrip(weight: int)
    requires 0 <= weight <= 100
    ensures ParsedWeight(Decimal.Itoa(weight)) == weight
  {
    Decimal.ParseIntRoundTrip(weight, Decimal.MIN_INT32, Decimal.MAX_INT32);
  }

  /** Of a number in the annotation, whoever wrote it, only 0 to 100 counts; an empty or missing
      annotation, or one that does not end in a digit, is 0. */
  lemma OddWeightsCountAsNone(n: int, raw: string)
    requires Decimal.MIN_INT32 <= n <= Decimal.MAX_INT32
    ensures ParsedWeight(Decimal.Itoa(n)) == if 0 <= n <= 100 then n else 0
    ensures raw == "" || !('0' <= raw[|raw| - 1] <= '9') ==> ParsedWeight(raw) == 0
  {
    Decimal.ParseIntRoundTrip(n, Decimal.MIN_INT32, Decimal.MAX_INT32);
  }

  // ---- The router's code ----

  /** A Go IngressSpec holds its Service references through pointers. */
  class ServiceRef {
    var name: string
    const port: string

    constructor (s: ServiceBackend)
      ensures name == s.name && port == s.port
    {
      name, port := s.name, s.port;
    }
  }

  datatype BackendRef = BackendRef(service: ServiceRef?, resource: string)

  datatype PathRef = PathRef(path: string, pathType: string, backend: BackendRef)

  datatype RuleRef = RuleRef(host: string, http: Option<seq<PathRef>>)

  datatype SpecRef = SpecRef(defaultBackend: Option<BackendRef>, rules: seq<RuleRef>, rest: string)

  function BackendLeaves(b: BackendRef): set<ServiceRef> {
    if b.service == null then {} else {b.service}
  }

  function PathLeaves(paths: seq<PathRef>): (s: set<ServiceRef>)
    ensures forall j | 0 <= j < |paths| :: BackendLeaves(paths[j].backend) <= s
  {
    if paths == [] then {} else BackendLeaves(paths[0].backend) + PathLeaves(paths[1..])
  }

  function RuleLeaves(rules: seq<RuleRef>): (s: set<ServiceRef>)
    ensures forall i | 0 <= i < |rules| && rules[i].http.Some? :: PathLeaves(rules[i].http.value) <= s
  {
    if rules == [] then {}
    else (if rules[0].http.Some? then PathLeaves(rules[0].http.value) else {}) + RuleLeaves(rules[1..])
  }

  /** The mutable structure reachable from a spec. */
  function Leaves(spec: SpecRef): set<ServiceRef> {
    (if spec.defaultBackend.Some? then BackendLeaves(spec.defaultBackend.value) else {}) + RuleLeaves(spec.rules)
  }

  function BackendValue(b: BackendRef): Backend
    reads b.service
  {
    Backend(if b.service == null then None else Some(ServiceBackend(b.service.name, b.service.port)), b.resource)
  }

  function PathsValue(paths: seq<PathRef>): (v: seq<HttpPath>)
    reads PathLeaves(paths)
    ensures |v| == |paths|
    ensures forall j | 0 <= j < |paths| ::
              v[j] == HttpPath(paths[j].path, paths[j].pathType, BackendValue(paths[j].backend))
  {
    if paths == [] then []
    else [HttpPath(paths[0].path, paths[0].pathType, BackendValue(paths[0].backend))] + PathsValue(paths[1..])
  }

  function RuleValue(r: RuleRef): IngressRule
    reads if r.http.Some? then PathLeaves(r.http.value) else {}
  {
    IngressRule(r.host, if r.http.None? then None else Some(PathsValue(r.http.value)))
  }

  function RulesValue(rules: seq<RuleRef>): (v: seq<IngressRule>)
    reads RuleLeaves(rules)
    ensures |v| == |rules|
    ensures forall i | 0 <= i < |rules| :: v[i] == RuleValue(rules[i])
  {
    if rules == [] then [] else [RuleValue(rules[0])] + RulesValue(rules[1..])
  }

  function SpecValue(spec: SpecRef): IngressSpec
    reads Leaves(spec)
  {
    IngressSpec(
      if spec.defaultBackend.None? then None else Some(BackendValue(spec.defaultBackend.value)),
      RulesValue(spec.rules),
      spec.rest)
  }

  lemma PathLeavesAllocated(paths: seq<PathRef>)
    ensures forall l | l in PathLeaves(paths) :: allocated(l)
  {
    if paths != [] {
      assert allocated(paths[0].backend.service);
      PathLeavesAllocated(paths[1..]);
    }
  }

  lemma LeavesAllocated(rules: seq<RuleRef>)
    ensures forall l | l in RuleLeaves(rules) :: allocated(l)
  {
    if rules != [] {
      if rules[0].http.Some? {
        PathLeavesAllocated(rules[0].http.value);
      }
      LeavesAllocated(rules[1..]);
    }
  }

  method DecodeBackend(b: Backend) returns (r: BackendRef)
    ensures fresh(BackendLeaves(r)) && BackendValue(r) == b
  {
    var service: ServiceRef? := null;
    if b.service.Some? {
      service := new ServiceRef(b.service.value);
    }
    r := BackendRef(service, b.resource);
  }

  method DecodePaths(paths: seq<HttpPath>) returns (r: seq<PathRef>)
    ensures fresh(PathLeaves(r)) && PathsValue(r) == paths
  {
    if paths == [] {
      return [];
    }
    var backend := DecodeBackend(paths[0].backend);
    var rest := DecodePaths(paths[1..]);
    r := [PathRef(paths[0].path, paths[0].pathType, backend)] + rest;
    assert r[1..] == rest;
  }

  method DecodeRules(rules: seq<IngressRule>) returns (r: seq<RuleRef>)
    ensures fresh(RuleLeaves(r)) && RulesValue(r) == rules
  {
    if rules == [] {
      return [];
    }
    var http: Option<seq<PathRef>> := None;
    if rules[0].http.Some? {
      var paths := DecodePaths(rules[0].http.value);
      http := Some(paths);
    }
    var rest := DecodeRules(rules[1..]);
    assert http.Some? ==> PathsValue(http.value) == rules[0].http.value;
    r := [RuleRef(rules[0].host, http)] + rest;
    assert r[1..] == rest;
    assert RuleValue(r[0]) == rules[0];
  }

  /** A structure of its own holding `spec`. */
  method Decode(spec: IngressSpec) returns (r: SpecRef)
    ensures fresh(Leaves(r)) && SpecValue(r) == spec
  {
    var defaultBackend: Option<BackendRef> := None;
    if spec.defaultBackend.Some? {
      var b := DecodeBackend(spec.defaultBackend.value);
      defaultBackend := Some(b);
    }
    var rules := DecodeRules(spec.rules);
    r := SpecRef(defaultBackend, rules, spec.rest);
  }

  ghost predicate Renamed(b: BackendRef, svc: string)
    reads b.service
  {
    b.service != null ==> b.service.name == svc
  }

  ghost predicate PathsRenamed(paths: seq<PathRef>, n: nat, svc: string)
    requires n <= |paths|
    reads PathLeaves(paths)
  {
    forall j | 0 <= j < n :: Renamed(paths[j].backend, svc)
  }

  ghost predicate RulesRenamed(rules: seq<RuleRef>, n: nat, svc: string)
    requires n <= |rules|
    reads RuleLeaves(rules)
  {
    forall i | 0 <= i < n && rules[i].http.Some? ::
      PathsRenamed(rules[i].http.value, |rules[i].http.value|, svc)
  }

  /** Names every Service reference of the spec `svc`, in place. */
  method RenameServices(sib: SpecRef, svc: string)
    modifies Leaves(sib)`name
    ensures sib.defaultBackend.Some? ==> Renamed(sib.defaultBackend.value, svc)
    ensures RulesRenamed(sib.rules, |sib.rules|, svc)
  {
    if sib.defaultBackend.Some? && sib.defaultBackend.value.service != null {
      sib.defaultBackend.value.service.name := svc;
    }
    var i := 0;
    while i < |sib.rules|
      invariant 0 <= i <= |sib.rules|
      invariant sib.defaultBackend.Some? ==> Renamed(sib.defaultBackend.value, svc)
      invariant RulesRenamed(sib.rules, i, svc)
    {
      if sib.rules[i].http.Some? {
        var paths := sib.rules[i].http.value;
        var j := 0;
        while j < |paths|
          invariant 0 <= j <= |paths|
          invariant sib.defaultBackend.Some? ==> Renamed(sib.defaultBackend.value, svc)
          invariant RulesRenamed(sib.rules, i, svc)
          invariant PathsRenamed(paths, j, svc)
        {
          var service := paths[j].backend.service;
          if service != null {
            assert BackendLeaves(paths[j].backend) <= Leaves(sib);
            service.name := svc;
          }
          j := j + 1;
        }
      }
      i := i + 1;
    }
  }

  twostate lemma BackendKeepsTheRest(b: BackendRef)
    ensures SameButServiceName(BackendValue(b), old(BackendValue(b)))
  {
  }

  twostate lemma PathsKeepTheRest(paths: seq<PathRef>)
    ensures SamePaths(PathsValue(paths), old(PathsValue(paths)))
  {
    forall j | 0 <= j < |paths|
      ensures SameButServiceName(PathsValue(paths)[j].backend, old(PathsValue(paths))[j].backend)
    {
      BackendKeepsTheRest(paths[j].backend);
    }
  }

  twostate lemma RuleKeepsTheRest(r: RuleRef)
    ensures SameRule(RuleValue(r), old(RuleValue(r)))
  {
    if r.http.Some? {
      PathsKeepTheRest(r.http.value);
    }
  }

  /** A Service reference is never given another port: whatever happens to it, only its name changes. */
  twostate lemma RenamingKeepsTheRest(sib: SpecRef)
    ensures SameButServiceNames(SpecValue(sib), old(SpecValue(sib)))
  {
    hide SameRule, SameButServiceName, RuleValue, BackendValue;
    if sib.defaultBackend.Some? {
      BackendKeepsTheRest(sib.defaultBackend.value);
    }
    forall i | 0 <= i < |sib.rules|
      ensures SameRule(RulesValue(sib.rules)[i], old(RulesValue(sib.rules))[i])
    {
      RuleKeepsTheRest(sib.rules[i]);
    }
  }

  lemma RenamedSendsOnlyTo(sib: SpecRef, svc: string)
    requires sib.defaultBackend.Some? ==> Renamed(sib.defaultBackend.value, svc)
    requires RulesRenamed(sib.rules, |sib.rules|, svc)
    ensures SendsOnlyTo(SpecValue(sib), svc)
  {
  }

  /** The sibling's spec: a deep copy whose Service references are then renamed in place.
      The stable spec keeps its value and shares no Service reference with the result. */
  method SiblingSpec(stable: SpecRef, canarySvc: string) returns (sib: SpecRef)
    ensures fresh(Leaves(sib)) && SpecValue(stable) == old(SpecValue(stable))
    ensures SpecValue(sib) == RewriteSpec(old(SpecValue(stable)), canarySvc)
  {
    ghost var shared := Leaves(stable);
    LeavesAllocated(stable.rules);
    sib := Decode(SpecValue(stable));
    label copied:
    assert shared !! Leaves(sib);
    RenameServices(sib, canarySvc);
    ghost var before := old@copied(SpecValue(sib));
    assert SpecValue(stable) == old(SpecValue(stable));
    RenamingKeepsTheRest@copied(sib);
    RenamedSendsOnlyTo(sib, canarySvc);
    RewriteIsUnique(before, canarySvc, SpecValue(sib));
  }

  /** The desired sibling of a stable Ingress whose spec is `stable`; the owner is set by the caller. */
  method SiblingIngress(k: Key, c: Canary, stable: IngressSpec, weight: int) returns (sib: Ingress)
    ensures sib == Sibling(k, c, stable, weight).(owner := None)
  {
    var decoded := Decode(stable);
    var spec := SiblingSpec(decoded, CanaryServiceName(c));
    sib := Ingress(
      map[LABEL_MANAGED := "true", LABEL_CANARY := k.name],
      map[ANNOTATION_CANARY := "true", ANNOTATION_WEIGHT := Decimal.Itoa(weight)],
      None,
      SpecValue(spec));
  }

  /** Copies every entry of `from`, in whatever order the map yields them. */
  method MergeInto(into: Labels, from: Labels) returns (merged: Labels)
    ensures merged == into + from
  {
    merged := into;
    var todo := from.Keys;
    while todo != {}
      invariant todo <= from.Keys
      invariant merged.Keys == into.Keys + (from.Keys - todo)
      invariant forall key | key in merged :: merged[key] == if key in from.Keys - todo then from[key] else into[key]
      decreases |todo|
    {
      var key :| key in todo;
      merged := merged[key := from[key]];
      todo := todo - {key};
    }
  }

  /** CreateOrUpdate's mutation: what it does to a sibling that exists, or is about to. */
  method Mutate(sibling: Ingress, desired: Ingress) returns (mutated: Ingress)
    ensures mutated == Merge(sibling, desired)
  {
    var annotations := MergeInto(sibling.annotations, desired.annotations);
    var labels := MergeInto(sibling.labels, desired.labels);
    mutated := Ingress(labels, annotations, sibling.owner, desired.spec);
  }

  /** `Reconciled` as a change of the whole cluster. */
  function ReconcileWorld(w: World, k: Key, c: Canary, weight: int): Result<World> {
    match Reconciled(w.ingresses, k, c, weight)
    case Ok(ings) => Ok(w.(ingresses := ings))
    case Err(e) => Err(e)
  }

  method Reconcile(api: ApiServer, k: Key, c: Canary, weight: int) returns (err: Option<Error>)
    modifies api
    ensures Attempted(api.reliable, Retryable, ReconcileWorld(old(api.world), k, c, weight), old(api.world), api.world, err)
  {
    if c.spec.traffic.ingressRef.None? || weight < 0 || weight > 100 {
      return Some(InvalidSpec);
    }
    var fetched := Fetch(api.reliable, api.world.ingresses, StableKey(k, c));
    if fetched.Err? {
      return Some(if fetched.error == NotFound then NotFound else Retryable);
    }
    var stable := fetched.value.spec;
    var sibling := SiblingIngress(k, c, stable, weight);
    sibling := sibling.(owner := Some(k));
    ghost var wanted := Sibling(k, c, stable, weight);
    var got := Fetch(api.reliable, api.world.ingresses, SiblingKey(k, c));
    if got.Err? && got.error != NotFound {
      return Some(Retryable);
    }
    if got.Ok? {
      sibling := got.value;
    }
    var desired := SiblingIngress(k, c, stable, weight);
    sibling := Mutate(sibling, desired);
    MergeOverwrites(wanted, wanted, wanted);
    if got == Ok(sibling) {
      assert api.world.ingresses == api.world.ingresses[SiblingKey(k, c) := sibling];
      return None;
    }
    err := api.PutIngress(SiblingKey(k, c), sibling);
    err := if err.Some? then Some(Retryable) else None;
  }

  method Reset(api: ApiServer, k: Key, c: Canary) returns (err: Option<Error>)
    modifies api
    ensures Attempted(api.reliable, Retryable, Ok(old(api.world).(ingresses := WasReset(old(api.world).ingresses, k, c))),
                      old(api.world), api.world, err)
  {
    if c.spec.traffic.ingressRef.None? {
      return None;
    }
    err := api.DeleteIngress(SiblingKey(k, c));
    err := if err.Some? then Some(Retryable) else None;
  }

  method Status(api: ApiServer, k: Key, c: Canary) returns (r: Result<TrafficStatus>)
    ensures (!api.reliable && r == Err(Retryable)) || r == ObservedStatus(api.world.ingresses, k, c)
  {
    if c.spec.traffic.ingressRef.None? {
      return Err(InvalidSpec);
    }
    var got := Fetch(api.reliable, api.world.ingresses, SiblingKey(k, c));
    if got.Err? {
      return if got.error == NotFound then Ok(TrafficStatus(100, 0)) else Err(Retryable);
    }
    var weight := 0;
    var raw := Lookup(got.value.annotations, ANNOTATION_WEIGHT);
    if raw != "" {
      var parsed := Decimal.ParseInt(raw, Decimal.MIN_INT32, Decimal.MAX_INT32);
      if parsed.Some? && 0 <= parsed.value <= 100 {
        weight := parsed.value;
      }
    }
    r := Ok(TrafficStatus(100 - weight, weight));
  }
}
