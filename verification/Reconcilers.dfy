/** The five reconcilers as the source writes them, each proved to carry out its tasks of the plan. */
module Reconcilers {
  import opened Prelude
  import opened Objects
  import opened ApiServer
  import opened Tasks
  import opened Hydra
  import opened Translation
  import opened ServiceStatus
  import opened Plan
  import opened Reports

  lemma VisitLeaf(x: Outside, w: World, t: Task)
    requires t.next == []
    ensures var d := Do(x, t.key, t.act, At(w, t.key));
            Visit(x, w, t) == (w[t.key := d.0], Node(t.key, d.0, d.1, []))
  {
    var d := Do(x, t.key, t.act, At(w, t.key));
    assert Run(x, w[t.key := d.0], []) == (w[t.key := d.0], []);
  }

  lemma RunOne(x: Outside, w: World, t: Task)
    ensures Run(x, w, [t]) == (Visit(x, w, t).0, [Visit(x, w, t).1])
  {
    var (w1, n) := Visit(x, w, t);
    assert [t][1..] == [];
    assert Run(x, w1, []) == (w1, []);
    assert [n] + [] == [n];
  }

  class NamespaceReconciler {
    const api: Server

    constructor (api: Server)
      ensures this.api == api
    {
      this.api := api;
    }

    method Reconcile(ns: Namespace) returns (error: Option<OpError>)
      modifies api
      ensures var v := Visit(api.outside, old(api.world), NamespaceTask(api.outside.parse, ns));
              api.world == v.0 && error == NamespaceError(ns, v.1)
    {
      ghost var t := NamespaceTask(api.outside.parse, ns);
      ghost var w := api.world[t.key := Do(api.outside, t.key, t.act, At(api.world, t.key)).0];
      RunOne(api.outside, w, t.next[0]);
      VisitLeaf(api.outside, w, t.next[0]);
      if ns.mode == "managed" {
        error := EnsureNamespace(ns);
        if error.Some? {
          return;
        }
      } else {
        var r := api.Get(NamespaceKey(ns.k8sName));
        if r.Failed? {
          return Some(OpError("reconciler: imported namespace " + ns.k8sName, r.error));
        }
      }
      error := ReconcileQuota(ns);
    }

    method EnsureNamespace(ns: Namespace) returns (error: Option<OpError>)
      modifies api
      ensures var k := NamespaceKey(ns.k8sName);
              var d := Do(api.outside, k, Ensure(NamespaceObj()), At(old(api.world), k));
              api.world == old(api.world)[k := d.0] && error == Wrapped(d.1, "namespace " + ns.k8sName)
    {
      var k := NamespaceKey(ns.k8sName);
      var r := api.Get(k);
      if r.Answer? {
        return None;
      }
      if r.error != NotFound {
        return Wrapped(Err(Getting, r.error), "namespace " + ns.k8sName);
      }
      r := api.Create(k, Fresh(NamespaceSpec, map["app.kubernetes.io/managed-by" := "hydra-operator"]));
      if r.Failed? && r.error != AlreadyExists {
        return Wrapped(Err(Creating, r.error), "namespace " + ns.k8sName);
      }
      error := None;
    }

    method ReconcileQuota(ns: Namespace) returns (error: Option<OpError>)
      modifies api
      ensures var t := QuotaTask(api.outside.parse, ns);
              var d := Do(api.outside, t.key, t.act, At(old(api.world), t.key));
              api.world == old(api.world)[t.key := d.0] && error == QuotaError(ns, d.1)
    {
      hide QuotaObj, StageWord, UpdateCell, CreateCell;
      var hasQuota := ns.quotas.limitsCPU != "" || ns.quotas.limitsMemory != "" ||
                      ns.quotas.requestsCPU != "" || ns.quotas.requestsMemory != "" || ns.quotas.countPods > 0;
      var k := QuotaKey(ns.k8sName);
      var existing := api.Get(k);
      var found := existing.Answer?;
      if existing.Failed? && existing.error != NotFound {
        return QuotaError(ns, Err(Getting, existing.error));
      }
      if !hasQuota {
        if found {
          var e := api.Delete(k);
          if e.Some? && e.value != NotFound {
            return QuotaError(ns, Err(Deleting, e.value));
          }
        }
        return None;
      }
      error := WriteQuota(ns, existing);
    }

    /** The last part of ReconcileQuota: update the quota that was read, or create it. */
    method WriteQuota(ns: Namespace, existing: Reply) returns (error: Option<OpError>)
      modifies api
      ensures var k, q := QuotaKey(ns.k8sName), QuotaObj(api.outside.parse, ns.quotas);
              var c, f := At(old(api.world), k), Next(api.outside, k, At(old(api.world), k));
              var r := if existing.Answer?
                       then UpdateCell(api.outside.subresource, f, c, q, Some(existing.stored.version))
                       else CreateCell(api.outside.subresource, f, c, q);
              && api.world == old(api.world)[k := r.0]
              && error == QuotaError(ns, Reported(if existing.Answer? then Updating else Creating, r.1))
    {
      hide HardOf, StageWord;
      var k := QuotaKey(ns.k8sName);
      var hard := BuildHard(ns.quotas);
      var quota := Fresh(QuotaSpec(hard), map[]);
      if existing.Answer? {
        var r := api.Update(k, quota, Some(existing.stored.version));
        if r.Failed? {
          return QuotaError(ns, Err(Updating, r.error));
        }
        return None;
      }
      var r := api.Create(k, quota);
      if r.Failed? {
        return QuotaError(ns, Err(Creating, r.error));
      }
      error := None;
    }

    method BuildHard(q: Quotas) returns (m: map<string, Quantity>)
      ensures m == HardOf(api.outside.parse, q) && QuotaAsAsked(api.outside.parse, m, q)
    {
      HardIsAsAsked(api.outside.parse, q);
      var hard := new ResourceList();
      hard.SetQuantity(api.outside.parse, "limits.cpu", q.limitsCPU);
      hard.SetQuantity(api.outside.parse, "limits.memory", q.limitsMemory);
      hard.SetQuantity(api.outside.parse, "requests.cpu", q.requestsCPU);
      hard.SetQuantity(api.outside.parse, "requests.memory", q.requestsMemory);
      if q.countPods > 0 {
        hard.entries := hard.entries["pods" := Count(q.countPods)];
      }
      m := hard.entries;
    }
  }

  /** The snapshot that comes with an error: every field at its zero value. */
  const NO_STATUS := ContainerStatus("", 0, "", "", [])

  function ServiceError(c: Container, o: Outcome): Option<OpError> {
    Wrapped(o, "service " + c.namespaceK8sName + "/" + ServiceKey(c).name)
  }

  class ContainerReconciler {
    const api: Server

    constructor (api: Server)
      ensures this.api == api
    {
      this.api := api;
    }

    method Reconcile(c: Container) returns (status: ContainerStatus, error: Option<OpError>)
      modifies api
      ensures var d := Do(api.outside, ServiceKey(c), Upsert(ServiceOf(api.outside.parse, c), true),
                          At(old(api.world), ServiceKey(c)));
              && api.world == old(api.world)[ServiceKey(c) := d.0]
              && error == ServiceError(c, d.1)
              && (error.None? ==> status == Derive(StatusOf(d.1)) && Snapshot(StatusOf(d.1), status))
              && (error.Some? ==> status == ContainerStatus("", 0, "", "", []))
    {
      hide Derive, ServiceOf, StageWord, Snapshot, GetCell, CreateCell, UpdateCell;
      var k := ServiceKey(c);
      var desired := BuildService(api.outside.parse, c);
      status := NO_STATUS;
      var existing := api.Get(k);
      if existing.Failed? && existing.error == NotFound {
        var created := api.Create(k, desired);
        if created.Failed? {
          return status, ServiceError(c, Err(Creating, created.error));
        }
        status := DeriveContainerStatus(created.stored.obj.status);
        return status, None;
      }
      if existing.Failed? {
        return status, ServiceError(c, Err(Getting, existing.error));
      }
      desired := desired.(status := existing.stored.obj.status);
      desired := desired.(annotations := existing.stored.obj.annotations);
      var updated := api.Update(k, desired, Some(existing.stored.version));
      if updated.Failed? {
        return status, ServiceError(c, Err(Updating, updated.error));
      }
      status := DeriveContainerStatus(updated.stored.obj.status);
      error := None;
    }
  }

  function RouteError(c: Container, o: Outcome): Option<OpError> {
    Wrapped(o, "route " + c.namespaceK8sName + "/" + RouteKey(c).name)
  }

  class RouteReconciler {
    const api: Server

    constructor (api: Server)
      ensures this.api == api
    {
      this.api := api;
    }

    method Reconcile(c: Container) returns (endpoint: string, error: Option<OpError>)
      modifies api
      ensures var t := RouteTask(c);
              var d := Do(api.outside, t.key, t.act, At(old(api.world), t.key));
              && api.world == old(api.world)[t.key := d.0]
              && error == RouteError(c, d.1)
              && (error.None? ==> endpoint == RouteEndpoint(d.1))
    {
      hide StageWord, EndpointFromRoute, GetCell, CreateCell, UpdateCell, DeleteCell;
      var k := RouteKey(c);
      if !c.needsOpenShiftRoute {
        var e := api.Delete(k);
        if e.Some? && e.value != NotFound {
          return "", RouteError(c, Err(Deleting, e.value));
        }
        return "", None;
      }
      var desired := Fresh(
        RouteSpec("Service", k.name, "edge", "Redirect"),
        map["app.kubernetes.io/managed-by" := "hydra-operator", "hydra.io/agent-id" := c.id]);
      assert desired == RouteObj(c);
      var existing := api.Get(k);
      if existing.Failed? && existing.error == NotFound {
        var created := api.Create(k, desired);
        if created.Failed? {
          return "", RouteError(c, Err(Creating, created.error));
        }
        return EndpointFromRoute(created.stored.obj.status), None;
      }
      if existing.Failed? {
        return "", RouteError(c, Err(Getting, existing.error));
      }
      desired := desired.(status := existing.stored.obj.status);
      desired := desired.(annotations := existing.stored.obj.annotations);
      var updated := api.Update(k, desired, Some(existing.stored.version));
      if updated.Failed? {
        return "", RouteError(c, Err(Updating, updated.error));
      }
      return EndpointFromRoute(updated.stored.obj.status), None;
    }
  }

  lemma NoMappings(x: Outside, w: World, c: Container)
    ensures Run(x, w, MappingTasks(c, [])) == (w, []) && DomainStatuses([], []) == []
  {
  }

  /** One mapping more. */
  lemma MappingAdded(x: Outside, w: World, c: Container, i: nat)
    requires i < |c.customDomains|
    ensures var ds := c.customDomains;
            var r := Run(x, w, MappingTasks(c, ds[..i]));
            var t := MappingTask(c, ds[i]);
            var d := Do(x, t.key, t.act, At(r.0, t.key));
            var s := Run(x, w, MappingTasks(c, ds[..i + 1]));
            && s.0 == r.0[t.key := d.0]
            && DomainStatuses(ds[..i + 1], s.1) == DomainStatuses(ds[..i], r.1) + [DomainStatusOf(ds[i], d.1)]
  {
    hide Do, Run, DomainStatusOf;
    var ds := c.customDomains;
    var r := Run(x, w, MappingTasks(c, ds[..i]));
    var t := MappingTask(c, ds[i]);
    assert MappingTasks(c, ds[..i + 1]) == MappingTasks(c, ds[..i]) + [t];
    RunAppend(x, w, MappingTasks(c, ds[..i]), [t]);
    VisitLeaf(x, r.0, t);
    RunOne(x, r.0, t);
    var n := Visit(x, r.0, t).1;
    assert ds[..i + 1][..i] == ds[..i] && (r.1 + [n])[..i] == r.1;
  }

  class DomainReconciler {
    const api: Server

    constructor (api: Server)
      ensures this.api == api
    {
      this.api := api;
    }

    method Reconcile(c: Container) returns (statuses: seq<DomainStatus>)
      modifies api
      ensures var r := Run(api.outside, old(api.world), MappingTasks(c, c.customDomains));
              api.world == r.0 && statuses == DomainStatuses(c.customDomains, r.1)
    {
      hide Do, Run, MappingTasks;
      statuses := [];
      NoMappings(api.outside, api.world, c);
      var ds := c.customDomains;
      ghost var x, w := api.outside, api.world;
      for i := 0 to |ds|
        invariant var r := Run(x, w, MappingTasks(c, ds[..i]));
                  api.world == r.0 && statuses == DomainStatuses(ds[..i], r.1)
      {
        MappingAdded(x, w, c, i);
        var status := ReconcileOne(c, ds[i].hostname);
        status := status.(id := ds[i].id);
        statuses := statuses + [status];
      }
      assert ds[..|ds|] == ds;
    }

    method ReconcileOne(c: Container, hostname: string) returns (status: DomainStatus)
      modifies api
      ensures var t := MappingTask(c, CustomDomain("", hostname));
              var d := Do(api.outside, t.key, t.act, At(old(api.world), t.key));
              api.world == old(api.world)[t.key := d.0] && status == DomainStatusOf(CustomDomain("", hostname), d.1)
    {
      var k := MappingKey(c, hostname);
      var desired := MappingObj(c);
      var existing := api.Get(k);
      var applied: Reply;
      if existing.Failed? && existing.error == NotFound {
        applied := api.Create(k, desired);
      } else if existing.Answer? {
        desired := desired.(status := existing.stored.obj.status);
        desired := desired.(annotations := existing.stored.obj.annotations);
        applied := api.Update(k, desired, Some(existing.stored.version));
      } else {
        applied := existing;
      }
      if applied.Failed? {
        return DomainStatus("", hostname, "error", Failure(applied.error));
      }
      if applied.stored.obj.status.ready == Some("True") {
        return DomainStatus("", hostname, "active", NoError);
      }
      return DomainStatus("", hostname, "error", NotYetReady);
    }
  }

  /** A branch none of whose tasks failed. */
  predicate Succeeded(n: Node) {
    n.outcome.Ok? && AllSucceeded(n.kids)
  }

  predicate AllSucceeded(ns: seq<Node>) {
    ns == [] || (Succeeded(ns[0]) && AllSucceeded(ns[1..]))
  }

  /** The policy part step by step: three templates, then three constraints. */
  function PolicySteps(allowed: seq<string>): seq<Task> {
    [TemplateTask(RequiredLimits, []), TemplateTask(BlockPrivileged, []), TemplateTask(AllowedRepos, []),
     ConstraintTask(RequiredLimits, Some(map[]), []), ConstraintTask(BlockPrivileged, Some(map[]), []),
     ConstraintTask(AllowedRepos, RepoParameters(allowed), [])]
  }

  /** The error that a policy step's failure becomes. */
  function StepError(t: Task, cause: ApiError): OpError {
    OpError(if t.key.kind.TemplateKind? then "reconciler: constraint template " + t.key.name
            else "reconciler: constraint " + t.key.name, cause)
  }

  /** Leaf tasks done in turn up to the first failure, and the error of that failure if there is one. */
  function Applied(x: Outside, w: World, ss: seq<Task>): (World, Option<OpError>)
    decreases |ss|
  {
    if ss == [] then (w, None)
    else
      var d := Do(x, ss[0].key, ss[0].act, At(w, ss[0].key));
      var w1 := w[ss[0].key := d.0];
      if d.1.Ok? then Applied(x, w1, ss[1..]) else (w1, Some(StepError(ss[0], d.1.cause)))
  }

  /** Tasks hung each below the one before. */
  function Chain(ss: seq<Task>): seq<Task> {
    if ss == [] then [] else [ss[0].(next := Chain(ss[1..]))]
  }

  lemma {:induction false} ChainRun(x: Outside, w: World, ss: seq<Task>)
    ensures var r := Run(x, w, Chain(ss));
            r.0 == Applied(x, w, ss).0 && (AllSucceeded(r.1) <==> Applied(x, w, ss).1.None?)
    decreases |ss|
  {
    if ss != [] {
      var t := Chain(ss)[0];
      RunOne(x, w, t);
      ChainRun(x, w[t.key := Do(x, t.key, t.act, At(w, t.key)).0], ss[1..]);
      var n := Visit(x, w, t).1;
      assert [n][1..] == [];
    }
  }

  lemma PolicyIsChain(x: Outside, w: World, allowed: seq<string>)
    ensures var v := Visit(x, w, PolicyTask(allowed));
            && v.0 == Applied(x, w, PolicySteps(allowed)).0
            && (Succeeded(v.1) <==> Applied(x, w, PolicySteps(allowed)).1.None?)
  {
    hide Do, Applied, Run, Visit, PolicySteps, PolicyTask, Chain;
    PolicyChained(allowed);
    ChainRun(x, w, PolicySteps(allowed));
    RunOne(x, w, PolicyTask(allowed));
    var n := Visit(x, w, PolicyTask(allowed)).1;
    assert [n][1..] == [];
  }

  lemma PolicyChained(allowed: seq<string>)
    ensures Chain(PolicySteps(allowed)) == [PolicyTask(allowed)]
  {
    var ss := PolicySteps(allowed);
    var s6 := [ConstraintTask(AllowedRepos, RepoParameters(allowed), [])];
    var s5 := [ConstraintTask(BlockPrivileged, Some(map[]), [])] + s6;
    var s4 := [ConstraintTask(RequiredLimits, Some(map[]), [])] + s5;
    var s3 := [TemplateTask(AllowedRepos, [])] + s4;
    var s2 := [TemplateTask(BlockPrivileged, [])] + s3;
    assert ss == [TemplateTask(RequiredLimits, [])] + s2;
    assert s6[1..] == [] && s5[1..] == s6 && s4[1..] == s5 && s3[1..] == s4 && s2[1..] == s3 && ss[1..] == s2;
    assert Chain(s6) == s6;
    assert Chain(s5) == [s5[0].(next := s6)];
    assert Chain(s4) == [s4[0].(next := Chain(s5))];
    assert Chain(s3) == [s3[0].(next := Chain(s4))];
    assert Chain(s2) == [s2[0].(next := Chain(s3))];
    assert Chain(ss) == [ss[0].(next := Chain(s2))];
  }

  /** One more step: either the prefix grows, or everything ends there. */
  lemma {:induction false} AppliedStep(x: Outside, w: World, ss: seq<Task>, i: nat)
    requires i < |ss| && Applied(x, w, ss[..i]).1.None?
    ensures var w1 := Applied(x, w, ss[..i]).0;
            var d := Do(x, ss[i].key, ss[i].act, At(w1, ss[i].key));
            var w2 := w1[ss[i].key := d.0];
            if d.1.Ok? then Applied(x, w, ss[..i + 1]) == (w2, None)
            else Applied(x, w, ss) == (w2, Some(StepError(ss[i], d.1.cause)))
    decreases i
  {
    if i > 0 {
      var d := Do(x, ss[0].key, ss[0].act, At(w, ss[0].key));
      assert ss[..i][1..] == ss[1..][..i - 1] && ss[..i + 1][1..] == ss[1..][..i];
      AppliedStep(x, w[ss[0].key := d.0], ss[1..], i - 1);
    } else {
      assert ss[..1][1..] == [];
    }
  }

  class PolicyReconciler {
    const api: Server

    constructor (api: Server)
      ensures this.api == api
    {
      this.api := api;
    }

    method ApplyUnstructured(k: Key, desired: Obj) returns (error: Option<ApiError>)
      modifies api
      ensures var d := Do(api.outside, k, Upsert(desired, false), At(old(api.world), k));
              api.world == old(api.world)[k := d.0] && error == (if d.1.Err? then Some(d.1.cause) else None)
    {
      var existing := api.Get(k);
      if existing.Failed? && existing.error == NotFound {
        var r := api.Create(k, desired);
        return if r.Failed? then Some(r.error) else None;
      }
      if existing.Failed? {
        return Some(existing.error);
      }
      var r := api.Update(k, desired, Some(existing.stored.version));
      return if r.Failed? then Some(r.error) else None;
    }

    /** The step at i of ss, everything before it having been done from w without failure. */
    method ApplyConstraintTemplate(p: Policy, ghost w: World, ghost ss: seq<Task>, ghost i: nat)
      returns (error: Option<ApiError>)
      requires i < |ss| && ss[i] == TemplateTask(p, [])
      requires Applied(api.outside, w, ss[..i]) == (api.world, None)
      modifies api
      ensures if error.None? then Applied(api.outside, w, ss[..i + 1]) == (api.world, None)
              else Applied(api.outside, w, ss) == (api.world, Some(StepError(ss[i], error.value)))
    {
      AppliedStep(api.outside, w, ss, i);
      error := ApplyUnstructured(TemplateKey(p), PolicyTemplateObj(p));
    }

    method ApplyConstraint(p: Policy, parameters: Option<map<string, seq<string>>>,
                           ghost w: World, ghost ss: seq<Task>, ghost i: nat)
      returns (error: Option<ApiError>)
      requires i < |ss| && ss[i] == ConstraintTask(p, parameters, [])
      requires Applied(api.outside, w, ss[..i]) == (api.world, None)
      modifies api
      ensures if error.None? then Applied(api.outside, w, ss[..i + 1]) == (api.world, None)
              else Applied(api.outside, w, ss) == (api.world, Some(StepError(ss[i], error.value)))
    {
      AppliedStep(api.outside, w, ss, i);
      if parameters.None? {
        var e := api.Delete(ConstraintKey(p));
        return if e.Some? && e.value != NotFound then e else None;
      }
      error := ApplyUnstructured(ConstraintKey(p), ConstraintObj(parameters.value));
    }

    method Reconcile(allowed: seq<string>) returns (error: Option<OpError>)
      modifies api
      ensures (api.world, error) == Applied(api.outside, old(api.world), PolicySteps(allowed))
    {
      hide Do;
      var templates := [RequiredLimits, BlockPrivileged, AllowedRepos];
      ghost var w, ss := api.world, PolicySteps(allowed);
      for i := 0 to |templates|
        invariant Applied(api.outside, w, ss[..i]) == (api.world, None)
      {
        var e := ApplyConstraintTemplate(templates[i], w, ss, i);
        if e.Some? {
          return Some(OpError("reconciler: constraint template " + PolicyName(templates[i]), e.value));
        }
      }
      var e := ApplyConstraint(RequiredLimits, Some(map[]), w, ss, 3);
      if e.Some? {
        return Some(OpError("reconciler: constraint " + PolicyName(RequiredLimits), e.value));
      }
      e := ApplyConstraint(BlockPrivileged, Some(map[]), w, ss, 4);
      if e.Some? {
        return Some(OpError("reconciler: constraint " + PolicyName(BlockPrivileged), e.value));
      }
      var parameters: Option<map<string, seq<string>>> := None;
      if |allowed| > 0 {
        var repos := [];
        for i := 0 to |allowed|
          invariant repos == allowed[..i]
        {
          repos := repos + [allowed[i]];
        }
        assert repos == allowed;
        parameters := Some(map["repos" := repos]);
      }
      e := ApplyConstraint(AllowedRepos, parameters, w, ss, 5);
      if e.Some? {
        return Some(OpError("reconciler: constraint " + PolicyName(AllowedRepos), e.value));
      }
      assert ss[..6] == ss;
      error := None;
    }
  }
}
