/** The Canary resource and the cluster objects its controller reads and writes. */
module Api {

  datatype Option<+T> = None | Some(value: T)

  /** Errors as the controller tells them apart: `Unavailable` is a failed API call,
      `Retryable` any error wrapped for requeueing, `Panicked` a write into a nil map. */
  datatype Error = NotFound | Unavailable | Retryable | InvalidSpec | Unsupported | QueryFailed | Panicked

  datatype Result<+T> = Ok(value: T) | Err(error: Error)

  datatype Key = Key(ns: string, name: string)

  type Labels = map<string, string>

  const PROMOTE: string := "kanary.io/promote"
  const ABORT: string := "kanary.io/abort"
  const PAUSED: string := "kanary.io/paused"
  const CANARY_ENABLED: string := "kanary.io/canary-enabled"
  const LABEL_MANAGED: string := "kanary.io/managed"
  const LABEL_CANARY: string := "kanary.io/canary"
  const LABEL_REVISION: string := "kanary.io/revision"

  function Lookup(m: Labels, key: string): string {
    if key in m then m[key] else ""
  }

  // ---- The Canary resource ----

  datatype Phase =
    | NoPhase | Idle | Progressing | AwaitingPromotion | Analyzing
    | Promoting | Succeeded | Failed | RolledBack

  datatype Mode = NoMode | Manual | Progressive | OtherMode(name: string)

  datatype ProviderType = Nginx | OpenShiftRoute | OtherProvider(name: string)

  datatype TargetRef = TargetRef(kind: string, apiVersion: string, name: string)

  datatype ServiceSpec = ServiceSpec(port: int, targetPort: string)

  datatype TrafficProvider = TrafficProvider(provider: ProviderType, ingressRef: Option<string>, routeRef: Option<string>)

  /** `steps` holds the step weights. */
  datatype Strategy = Strategy(mode: Mode, steps: seq<int>, stepInterval: int, maxFailedChecks: int)

  datatype MetricCheck = MetricCheck(name: string, query: string, min: Option<real>, max: Option<real>)

  datatype AnalysisConfig = AnalysisConfig(enabled: bool, providerType: string, metrics: seq<MetricCheck>)

  datatype CanarySpec = CanarySpec(
    target: TargetRef, service: ServiceSpec, traffic: TrafficProvider, strategy: Strategy, analysis: AnalysisConfig)

  datatype AnalysisEntry = AnalysisEntry(metric: string, value: real, passed: bool)

  datatype AnalysisResult = AnalysisResult(passed: bool, failedChecks: int, report: seq<AnalysisEntry>)

  datatype Status = Status(
    phase: Phase, index: int, weight: int, stable: string, canary: string,
    failedChecks: int, lastAnalysis: Option<seq<AnalysisEntry>>)

  const ZERO_STATUS: Status := Status(NoPhase, 0, 0, "", "", 0, None)

  datatype Canary = Canary(spec: CanarySpec, annotations: Labels, status: Status)

  /** The controller's local copy of a Canary, whose fields it assigns in place. */
  class CanaryObject {
    var spec: CanarySpec
    var annotations: Labels
    var status: Status

    constructor (c: Canary)
      ensures Value() == c
    {
      spec, annotations, status := c.spec, c.annotations, c.status;
    }

    function Value(): Canary
      reads this
    {
      Canary(spec, annotations, status)
    }
  }

  predicate PromoteRequested(c: Canary) {
    Lookup(c.annotations, PROMOTE) == "true"
  }

  predicate AbortRequested(c: Canary) {
    Lookup(c.annotations, ABORT) == "true"
  }

  /** The two commands a user gives by annotation. */
  datatype Command = PromoteCommand | AbortCommand

  predicate Requested(cmd: Command, c: Canary) {
    if cmd.PromoteCommand? then PromoteRequested(c) else AbortRequested(c)
  }

  // ---- Workload objects ----

  datatype Operator = In | NotIn | Exists | DoesNotExist

  datatype Requirement = Requirement(key: string, op: Operator, values: set<string>)

  /** `matchLabels` is None for a nil map. */
  datatype LabelSelector = LabelSelector(matchLabels: Option<Labels>, matchExpressions: seq<Requirement>)

  datatype PodTemplate = PodTemplate(labels: Labels, podSpec: string)

  datatype DeploymentSpec = DeploymentSpec(
    replicas: Option<int>, selector: Option<LabelSelector>, template: PodTemplate, rest: string)

  datatype Deployment = Deployment(
    labels: Labels, annotations: Labels, owner: Option<Key>, generation: int, spec: DeploymentSpec)

  datatype PortRef = Number(n: int) | Named(name: string)

  datatype ServicePort = ServicePort(port: int, targetPort: PortRef)

  datatype Service = Service(
    labels: Labels, owner: Option<Key>, selector: Labels, ports: seq<ServicePort>, rest: string)

  // ---- Traffic objects ----

  datatype ServiceBackend = ServiceBackend(name: string, port: string)

  datatype Backend = Backend(service: Option<ServiceBackend>, resource: string)

  datatype HttpPath = HttpPath(path: string, pathType: string, backend: Backend)

  datatype IngressRule = IngressRule(host: string, http: Option<seq<HttpPath>>)

  datatype IngressSpec = IngressSpec(defaultBackend: Option<Backend>, rules: seq<IngressRule>, rest: string)

  datatype Ingress = Ingress(labels: Labels, annotations: Labels, owner: Option<Key>, spec: IngressSpec)

  datatype Alternate = Alternate(kind: string, name: string, weight: Option<int>)

  datatype Route = Route(toWeight: Option<int>, alternates: seq<Alternate>, rest: string)

  datatype TrafficStatus = TrafficStatus(stable: int, canary: int)

  /** What the API server stores. */
  datatype World = World(
    canaries: map<Key, Canary>,
    deployments: map<Key, Deployment>,
    services: map<Key, Service>,
    ingresses: map<Key, Ingress>,
    routes: map<Key, Route>)

  // ---- Derived names ----

  function TargetKey(k: Key, c: Canary): Key {
    Key(k.ns, c.spec.target.name)
  }

  /** The canary Deployment and the canary Service share this name. */
  function CanaryKey(k: Key, c: Canary): Key {
    Key(k.ns, CanaryServiceName(c))
  }

  function CanaryServiceName(c: Canary): string {
    c.spec.target.name + "-canary"
  }
}
