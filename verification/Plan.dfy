/** A desired state as the forest of tasks that one sync attempts: policy, then namespaces, then containers. */
module Plan {
  import opened Prelude
  import opened Objects
  import opened Tasks
  import opened Hydra
  import opened Naming
  import opened Translation

  type Parser = string -> Option<Quantity>

  // ----- Keys -----

  function NamespaceKey(name: string): Key { Key(NamespaceKind, "", name) }
  function QuotaKey(namespace: string): Key { Key(QuotaKind, namespace, "hydra-quota") }
  function ServiceKey(c: Container): Key { Key(ServiceKind, c.namespaceK8sName, KsvcNameFor(c.id)) }
  function RouteKey(c: Container): Key { Key(RouteKind, c.namespaceK8sName, KsvcNameFor(c.id)) }
  function MappingKey(c: Container, hostname: string): Key { Key(MappingKind, c.namespaceK8sName, hostname) }

  /** The three policies; each owns one template and at most one constraint. */
  datatype Policy = RequiredLimits | BlockPrivileged | AllowedRepos

  function PolicyKind(p: Policy): string {
    match p
    case RequiredLimits => "K8sRequiredResourceLimits"
    case BlockPrivileged => "K8sBlockPrivileged"
    case AllowedRepos => "K8sAllowedRepos"
  }

  function PolicyName(p: Policy): string {
    match p
    case RequiredLimits => "hydra-required-resource-limits"
    case BlockPrivileged => "hydra-block-privileged"
    case AllowedRepos => "hydra-allowed-repos"
  }

  function PolicyRego(p: Policy): Rego {
    match p
    case RequiredLimits => RequiredLimitsRego
    case BlockPrivileged => BlockPrivilegedRego
    case AllowedRepos => AllowedReposRego
  }

  function TemplateKey(p: Policy): Key { Key(TemplateKind, "", PolicyName(p)) }
  function ConstraintKey(p: Policy): Key { Key(ConstraintKind(ToLower(PolicyKind(p))), "", PolicyName(p)) }

  // ----- Objects -----

  function NamespaceObj(): Obj { Fresh(NamespaceSpec, MANAGED_BY) }

  function QuotaObj(parse: Parser, q: Quotas): Obj { Fresh(QuotaSpec(HardOf(parse, q)), map[]) }

  predicate HasQuota(q: Quotas) {
    q.limitsCPU != "" || q.limitsMemory != "" || q.requestsCPU != "" || q.requestsMemory != "" || q.countPods > 0
  }

  function RouteObj(c: Container): Obj {
    Fresh(RouteSpec("Service", KsvcNameFor(c.id), "edge", "Redirect"), AgentLabels(c.id))
  }

  function MappingObj(c: Container): Obj {
    Fresh(MappingSpec("serving.knative.dev/v1", "Service", KsvcNameFor(c.id)), MANAGED_BY)
  }

  function PolicyTemplateObj(p: Policy): Obj {
    Fresh(TemplateSpec(PolicyKind(p), "admission.k8s.gatekeeper.sh", PolicyRego(p)), map[])
  }

  function ConstraintObj(parameters: map<string, seq<string>>): Obj {
    Fresh(ConstraintSpec([""], ["Pod"], parameters), map[])
  }

  // ----- Tasks -----

  function QuotaTask(parse: Parser, ns: Namespace): Task {
    Task(QuotaKey(ns.k8sName),
         if HasQuota(ns.quotas) then Upsert(QuotaObj(parse, ns.quotas), false) else RemoveIfSeen,
         [])
  }

  function NamespaceTask(parse: Parser, ns: Namespace): Task {
    Task(NamespaceKey(ns.k8sName),
         if ns.mode == "managed" then Ensure(NamespaceObj()) else Require,
         [QuotaTask(parse, ns)])
  }

  function RouteTask(c: Container): Task {
    Task(RouteKey(c), if c.needsOpenShiftRoute then Upsert(RouteObj(c), true) else Remove, [])
  }

  function MappingTask(c: Container, d: CustomDomain): Task {
    Task(MappingKey(c, d.hostname), Upsert(MappingObj(c), true), [])
  }

  function MappingTasks(c: Container, ds: seq<CustomDomain>): (r: seq<Task>)
    ensures |r| == |ds|
    ensures forall i :: 0 <= i < |ds| ==> r[i] == MappingTask(c, ds[i])
  {
    Map(d => MappingTask(c, d), ds)
  }

  function ContainerTask(parse: Parser, c: Container): Task {
    Task(ServiceKey(c), Upsert(ServiceOf(parse, c), true), [RouteTask(c)] + MappingTasks(c, c.customDomains))
  }

  function TemplateTask(p: Policy, next: seq<Task>): Task {
    Task(TemplateKey(p), Upsert(PolicyTemplateObj(p), false), next)
  }

  /** Without parameters the constraint is removed. */
  function ConstraintTask(p: Policy, parameters: Option<map<string, seq<string>>>, next: seq<Task>): Task {
    Task(ConstraintKey(p), if parameters.Some? then Upsert(ConstraintObj(parameters.value), false) else Remove, next)
  }

  function RepoParameters(allowed: seq<string>): Option<map<string, seq<string>>> {
    if allowed == [] then None else Some(map["repos" := allowed])
  }

  /** The first failure ends the policy part, so each step hangs below the one before. */
  function PolicyTask(allowed: seq<string>): Task {
    TemplateTask(RequiredLimits, [
      TemplateTask(BlockPrivileged, [
        TemplateTask(AllowedRepos, [
          ConstraintTask(RequiredLimits, Some(map[]), [
            ConstraintTask(BlockPrivileged, Some(map[]), [
              ConstraintTask(AllowedRepos, RepoParameters(allowed), [])])])])])])
  }

  function NamespaceTasks(parse: Parser, nss: seq<Namespace>): (r: seq<Task>)
    ensures |r| == |nss|
    ensures forall i :: 0 <= i < |nss| ==> r[i] == NamespaceTask(parse, nss[i])
  {
    Map(ns => NamespaceTask(parse, ns), nss)
  }

  function ContainerTasks(parse: Parser, cs: seq<Container>): (r: seq<Task>)
    ensures |r| == |cs|
    ensures forall i :: 0 <= i < |cs| ==> r[i] == ContainerTask(parse, cs[i])
  {
    Map(c => ContainerTask(parse, c), cs)
  }

  function PolicyTasks(gatekeeper: bool, allowed: seq<string>): seq<Task> {
    if gatekeeper then [PolicyTask(allowed)] else []
  }

  /** `gatekeeper` says that detection succeeded and found Gatekeeper. */
  function PlanOf(parse: Parser, st: DesiredState, gatekeeper: bool): seq<Task> {
    PolicyTasks(gatekeeper, st.allowedRegistries) +
    NamespaceTasks(parse, st.namespaces) +
    ContainerTasks(parse, st.containers)
  }

  /** Where each entry's tree stands in the plan. */
  lemma PlanHolds(parse: Parser, st: DesiredState, gatekeeper: bool)
    ensures
      var plan := PlanOf(parse, st, gatekeeper);
      var nss, cs := st.namespaces, st.containers;
      && |plan| >= |nss| + |cs|
      && (gatekeeper ==> |plan| > |nss| + |cs| && plan[0] == PolicyTask(st.allowedRegistries))
      && (forall i :: 0 <= i < |nss| ==> plan[|plan| - |cs| - |nss| + i] == NamespaceTask(parse, nss[i]))
      && (forall i :: 0 <= i < |cs| ==> plan[|plan| - |cs| + i] == ContainerTask(parse, cs[i]))
  {
    hide ContainerTask, NamespaceTask, PolicyTask;
  }
}
