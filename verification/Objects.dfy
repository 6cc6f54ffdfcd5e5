/** The Kubernetes, Knative, OpenShift and Gatekeeper objects the operator writes, as values. */
module Objects {
  import opened Prelude

  /** What an object is. A Gatekeeper constraint kind has one resource per template. */
  datatype Kind =
    | NamespaceKind
    | QuotaKind
    | ServiceKind
    | RouteKind
    | MappingKind
    | TemplateKind
    | ConstraintKind(resource: string)
    | SecretKind

  datatype Key = Key(kind: Kind, namespace: string, name: string)

  /** A parsed quantity (its canonical form) or a plain count. */
  datatype Quantity = Parsed(canonical: string) | Count(n: int)

  type Labels = map<string, string>

  datatype EnvSource = Plain(value: string) | FromSecret(secret: string, key: string)
  datatype EnvEntry = EnvEntry(name: string, source: EnvSource)
  datatype ContainerPort = ContainerPort(name: string, port: int, protocol: string)
  datatype SecurityContext = SecurityContext(privileged: bool, allowPrivilegeEscalation: bool)

  datatype PodContainer = PodContainer(
    image: string,
    env: seq<EnvEntry>,
    ports: seq<ContainerPort>,
    limits: map<string, Quantity>,
    requests: map<string, Quantity>,
    readinessPath: Option<string>,
    security: Option<SecurityContext>)

  datatype RevisionTemplate = RevisionTemplate(
    annotations: Labels,
    container: PodContainer,
    runtimeClass: Option<string>,
    concurrency: Option<int>)

  datatype TrafficTarget = TrafficTarget(latest: Option<bool>, revisionName: string, percent: Option<int>)

  /** The three rule texts of policy.go, and anybody else's. */
  datatype Rego = RequiredLimitsRego | BlockPrivilegedRego | AllowedReposRego | OtherRego(text: string)

  datatype Spec =
    | NamespaceSpec
    | QuotaSpec(hard: map<string, Quantity>)
    | ServiceSpec(template: RevisionTemplate, traffic: seq<TrafficTarget>)
    | RouteSpec(toKind: string, toName: string, termination: string, insecurePolicy: string)
    | MappingSpec(refApiVersion: string, refKind: string, refName: string)
    | TemplateSpec(crdKind: string, target: string, rego: Rego)
    | ConstraintSpec(apiGroups: seq<string>, kinds: seq<string>, parameters: map<string, seq<string>>)
    | SecretSpec(data: map<string, string>)

  /** The parts of any object's status that the operator reads; a kind leaves the others blank. */
  datatype Status = Status(
    url: Option<string>,
    latestReady: string,
    ready: Option<string>,
    trafficRevisions: seq<string>,
    ingressHosts: seq<string>)

  const BLANK_STATUS := Status(None, "", None, [], [])

  datatype Obj = Obj(spec: Spec, labels: Labels, annotations: Labels, status: Status)

  /** An object as a client builds it: no annotations, no status. */
  function Fresh(spec: Spec, labels: Labels): Obj {
    Obj(spec, labels, map[], BLANK_STATUS)
  }
}
