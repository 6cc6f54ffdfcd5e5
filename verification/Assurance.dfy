/** What a report of success is worth when other calls fail. */
module Assurance {
  import opened Prelude
  import opened Objects
  import opened ApiServer
  import opened Tasks
  import opened Locality
  import opened Settling
  import opened Hydra
  import opened Translation
  import opened ServiceStatus
  import opened Plan
  import opened Footprints
  import opened Reports
  import opened SyncTheorems
  import opened Convergence

  /**
   A namespace reported "synced" exists and has the quota asked for. Unless somebody else wrote to
   it meanwhile, it is also as it was before, or as the operator creates it.
   */
  ghost predicate NamespaceAssured(x: Outside, ns: Namespace, n: Node, w: World, v: World) {
    var k, q := NamespaceKey(ns.k8sName), QuotaKey(ns.k8sName);
    NamespaceReport(ns, n).syncStatus == "synced" ==>
      && Present(v, k)
      && (if HasQuota(ns.quotas) then Holds(v, q, QuotaSpec(HardOf(x.parse, ns.quotas)), map[]) else !Present(v, q))
      && (UndisturbedCalls(x, k, At(w, k), At(v, k)) ==> NamespaceSettled(x.parse, ns, w, v))
  }

  /** A container not reported "error" has its Service as built, and every hostname reported "active" its mapping. */
  ghost predicate ContainerAssured(parse: Parser, c: Container, n: Node, v: World)
    requires ContainerShaped(c, n)
  {
    && (AgentReport(c, n).status != "error" ==>
          Holds(v, ServiceKey(c), ServiceSpec(TemplateOf(parse, c), TrafficOf(c.traffic)), AgentLabels(c.id)))
    && (n.outcome.Ok? ==> forall j :: 0 <= j < |c.customDomains| && DomainOutcome(c, n, j).status == "active" ==>
          Holds(v, MappingKey(c, c.customDomains[j].hostname),
                MappingSpec("serving.knative.dev/v1", "Service", ServiceKey(c).name), MANAGED_BY))
  }

  lemma TaskAssured(x: Outside, w: World, v: World, t: Task)
    requires ReachedOne(x, w, v, t)
    ensures Branch(x, w, t).outcome.Ok? ==>
              && Left(t.act, At(v, t.key).obj)
              && (UndisturbedCalls(x, t.key, At(w, t.key), At(v, t.key)) ==>
                  Met(t.act, At(w, t.key).obj, At(v, t.key).obj))
              && Branch(x, w, t).kids == Parallel(x, w, t.next)
              && forall j :: 0 <= j < |t.next| ==>
                   ReachedOne(x, w, v, t.next[j]) && Branch(x, w, t).kids[j] == Branch(x, w, t.next[j])
  {
    hide Do, ReachedOne;
    OkLeaves(x, t.key, t.act, At(w, t.key));
    ReachedUnfold(x, w, v, t);
    if UndisturbedCalls(x, t.key, At(w, t.key), At(v, t.key)) {
      OkMeets(x, t.key, t.act, At(w, t.key));
    }
    if Branch(x, w, t).outcome.Ok? {
      forall j | 0 <= j < |t.next|
        ensures ReachedOne(x, w, v, t.next[j]) && Branch(x, w, t).kids[j] == Branch(x, w, t.next[j])
      {
        ReachedAt(x, w, v, t.next, j);
        ParallelAt(x, w, t.next, j);
      }
    }
  }

  lemma ReachedUnfold(x: Outside, w: World, v: World, t: Task)
    requires ReachedOne(x, w, v, t)
    ensures var d := Do(x, t.key, t.act, At(w, t.key));
            At(v, t.key) == d.0 && (d.1.Ok? ==> Reached(x, w, v, t.next))
  {
    hide Do;
  }

  lemma NamespaceReportHolds(x: Outside, w: World, v: World, ns: Namespace)
    requires ReachedOne(x, w, v, NamespaceTask(x.parse, ns))
    ensures NamespaceAssured(x, ns, Branch(x, w, NamespaceTask(x.parse, ns)), w, v)
  {
    hide ReachedOne, Branch, HardOf, UndisturbedCalls;
    var t, q := NamespaceTask(x.parse, ns), QuotaTask(x.parse, ns);
    TaskAssured(x, w, v, t);
    if Branch(x, w, t).outcome.Ok? {
      assert t.next[0] == q;
      TaskAssured(x, w, v, q);
    }
  }

  lemma ContainerReportHolds(x: Outside, w: World, v: World, c: Container)
    requires ReachedOne(x, w, v, ContainerTask(x.parse, c))
    ensures ContainerShaped(c, Branch(x, w, ContainerTask(x.parse, c)))
    ensures ContainerAssured(x.parse, c, Branch(x, w, ContainerTask(x.parse, c)), v)
  {
    hide ReachedOne, Branch, TemplateOf, TrafficOf, Derive, EndpointFromRoute, UndisturbedCalls;
    var t := ContainerTask(x.parse, c);
    BranchShaped(x, w, c);
    TaskAssured(x, w, v, t);
    if Branch(x, w, t).outcome.Ok? {
      forall j | 0 <= j < |c.customDomains| && DomainOutcome(c, Branch(x, w, t), j).status == "active"
        ensures Holds(v, MappingKey(c, c.customDomains[j].hostname),
                      MappingSpec("serving.knative.dev/v1", "Service", ServiceKey(c).name), MANAGED_BY)
      {
        assert t.next[1 + j] == MappingTask(c, c.customDomains[j]);
        TaskAssured(x, w, v, t.next[1 + j]);
      }
    }
  }

  /**
   Reports of success can be relied on, whatever other calls fail and whoever else writes: each
   namespace reported "synced" exists with the quota asked for, each container not reported "error"
   has exactly the Service that its definition translates to, and each hostname reported "active" is
   mapped to it.
   */
  lemma SuccessMeansDone(x: Outside, w: World, st: DesiredState, gatekeeper: Option<bool>)
    requires DistinctKeys(st)
    ensures
      var r := SyncRun(x, w, st, gatekeeper);
      && (forall i :: 0 <= i < |st.namespaces| ==>
            NamespaceAssured(x, st.namespaces[i], NamespaceNodes(st, r.1)[i], w, r.0))
      && (forall i :: 0 <= i < |st.containers| ==>
            ContainerAssured(x.parse, st.containers[i], ContainerNodes(st, r.1)[i], r.0))
  {
    hide Run, Parallel, PlanOf, DistinctKeys, Unique, Foot, Derived, Sync, SyncReports, Branch, Reached, ReachedOne,
         NamespaceTask, ContainerTask, NamespaceAssured, ContainerAssured;
    var g := gatekeeper == Some(true);
    var plan := PlanOf(x.parse, st, g);
    PlanFoot(x.parse, st, g);
    PlanHolds(x.parse, st, g);
    NodesAreBranches(x, w, st, g);
    RunReaches(x, w, plan);
    var v, c := Run(x, w, plan).0, |plan| - |st.containers|;
    forall i | 0 <= i < |st.namespaces|
      ensures NamespaceAssured(x, st.namespaces[i], NamespaceNodes(st, Run(x, w, plan).1)[i], w, v)
    {
      ParallelAt(x, w, NamespaceTasks(x.parse, st.namespaces), i);
      ReachedAt(x, w, v, plan, c - |st.namespaces| + i);
      NamespaceReportHolds(x, w, v, st.namespaces[i]);
    }
    forall i | 0 <= i < |st.containers|
      ensures ContainerAssured(x.parse, st.containers[i], ContainerNodes(st, Run(x, w, plan).1)[i], v)
    {
      ParallelAt(x, w, ContainerTasks(x.parse, st.containers), i);
      ReachedAt(x, w, v, plan, c + i);
      ContainerReportHolds(x, w, v, st.containers[i]);
    }
  }
}
