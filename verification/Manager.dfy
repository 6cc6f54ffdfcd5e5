/** The orchestrator: one sync over the whole desired state, and the heartbeat. */
module Manager {
  import opened Prelude
  import opened ApiServer
  import opened Tasks
  import opened Hydra
  import opened ServiceStatus
  import opened Translation
  import opened Plan
  import opened Reports
  import opened Reconcilers

  class Manager {
    const api: Server
    const hydra: Client
    const namespaces: NamespaceReconciler
    const containers: ContainerReconciler
    const routes: RouteReconciler
    const domains: DomainReconciler
    const policy: PolicyReconciler
    const operatorVersion: string

    /** All reconcilers talk to the one API server. */
    ghost predicate Valid() {
      namespaces.api == api && containers.api == api && routes.api == api && domains.api == api && policy.api == api
    }

    constructor (api: Server, hydra: Client, operatorVersion: string)
      ensures Valid() && this.api == api && this.hydra == hydra && this.operatorVersion == operatorVersion
    {
      this.api, this.hydra, this.operatorVersion := api, hydra, operatorVersion;
      namespaces := new NamespaceReconciler(api);
      containers := new ContainerReconciler(api);
      routes := new RouteReconciler(api);
      domains := new DomainReconciler(api);
      policy := new PolicyReconciler(api);
    }

    /** One heartbeat, unless detecting or marshalling the capabilities fails. */
    method HeartbeatOnce(detected: Option<Detection>)
      modifies hydra
      ensures hydra.token == old(hydra.token) && hydra.turn == old(hydra.turn)
      ensures hydra.sent == old(hydra.sent) + Signed(hydra.token, HeartbeatOf(operatorVersion, detected))
      ensures if detected.Some? && detected.value.capabilities.Some? then
                var d := detected.value;
                hydra.sent == old(hydra.sent) + [Request(Some(hydra.token),
                  Heartbeat(operatorVersion, d.k8sVersion, d.nodeCount, d.capabilities.value))]
              else hydra.sent == old(hydra.sent)
    {
      if detected.None? {
        return;
      }
      var capsJSON := detected.value.capabilities;
      if capsJSON.None? {
        return;
      }
      var _ := hydra.Issue(
        Heartbeat(operatorVersion, detected.value.k8sVersion, detected.value.nodeCount, capsJSON.value), true);
    }

    method SyncOnce(pulled: Option<DesiredState>, gatekeeper: Option<bool>)
      requires Valid()
      modifies api, hydra
      ensures hydra.token == old(hydra.token)
      ensures var r := Sync(api.outside, old(api.world), pulled, gatekeeper);
              api.world == r.world && hydra.Issued(old(hydra.State()), r.sent)
    {
      hide Run, NamespacePass, ContainerPass, Issues;
      ghost var token, other, from := hydra.token, hydra.other, hydra.State();
      var _ := hydra.Send(PullDesiredState);
      ghost var pull := hydra.State();
      if pulled.None? {
        var _ := hydra.Send(ClusterStatus("unreachable", 0, 0));
        IssuesThen(token, other, from, pull, hydra.State(), [PullDesiredState], [ClusterStatus("unreachable", 0, 0)]);
        assert [PullDesiredState] + [ClusterStatus("unreachable", 0, 0)]
            == [PullDesiredState, ClusterStatus("unreachable", 0, 0)];
        return;
      }
      var st := pulled.value;
      ReconcilePolicy(st.allowedRegistries, gatekeeper);
      ghost var n := NamespacePass(api.outside, api.world, st.namespaces);
      var namespacesSynced := ReconcileNamespaces(st.namespaces);
      IssuesThen(token, other, from, pull, hydra.State(), [PullDesiredState], n.sent);
      ghost var half := hydra.State();
      ghost var c := ContainerPass(api.outside, api.world, st.containers);
      var containersReady := ReconcileContainers(st.containers);
      IssuesThen(token, other, from, half, hydra.State(), [PullDesiredState] + n.sent, c.sent);
      ghost var done := hydra.State();
      var last := ClusterStatus("reachable", namespacesSynced, containersReady);
      var _ := hydra.Send(last);
      IssuesThen(token, other, from, done, hydra.State(), [PullDesiredState] + n.sent + c.sent, [last]);
    }

    method ReconcilePolicy(allowed: seq<string>, gatekeeper: Option<bool>)
      requires Valid()
      modifies api
      ensures api.world == Run(api.outside, old(api.world), PolicyTasks(gatekeeper == Some(true), allowed)).0
    {
      if gatekeeper.None? {
        return;
      }
      if !gatekeeper.value {
        return;
      }
      PolicyIsChain(api.outside, api.world, allowed);
      RunOne(api.outside, api.world, PolicyTask(allowed));
      var _ := policy.Reconcile(allowed);
    }

    method ReconcileNamespaces(nss: seq<Namespace>) returns (synced: nat)
      requires Valid()
      modifies api, hydra
      ensures hydra.token == old(hydra.token)
      ensures var p := NamespacePass(api.outside, old(api.world), nss);
              && api.world == p.world
              && hydra.Issued(old(hydra.State()), p.sent)
              && synced == p.count
    {
      hide Visit, NamespacePass, NamespaceTask, Issues, NamespaceOwnError, QuotaError;
      synced := 0;
      ghost var x, w := api.outside, api.world;
      NamespacesStart(x, w);
      IssuesNone(hydra.token, hydra.other, hydra.State());
      for i := 0 to |nss|
        invariant hydra.token == old(hydra.token)
        invariant var p := NamespacePass(x, w, nss[..i]);
                  && api.world == p.world
                  && hydra.Issued(old(hydra.State()), p.sent)
                  && synced == p.count
      {
        ghost var before, from := NamespacePass(x, w, nss[..i]), hydra.State();
        NamespaceAdded(x, w, nss, i);
        var error := namespaces.Reconcile(nss[i]);
        var req := NamespaceStatus(nss[i].id, "synced", None);
        if error.Some? {
          req := NamespaceStatus(nss[i].id, "error", error);
        } else {
          synced := synced + 1;
        }
        var _ := hydra.Send(req);
        IssuesThen(hydra.token, hydra.other, old(hydra.State()), from, hydra.State(), before.sent, [req]);
      }
      assert nss[..|nss|] == nss;
    }

    method ReconcileContainers(cs: seq<Container>) returns (ready: nat)
      requires Valid()
      modifies api, hydra
      ensures hydra.token == old(hydra.token)
      ensures var p := ContainerPass(api.outside, old(api.world), cs);
              && api.world == p.world
              && hydra.Issued(old(hydra.State()), p.sent)
              && ready == p.count
    {
      hide Visit, ContainerPass, ContainerReport, AgentReport, ContainerTask, ContainerShaped, Issues;
      ready := 0;
      ghost var x, w := api.outside, api.world;
      ContainersStart(x, w);
      IssuesNone(hydra.token, hydra.other, hydra.State());
      for i := 0 to |cs|
        invariant hydra.token == old(hydra.token)
        invariant var p := ContainerPass(x, w, cs[..i]);
                  && api.world == p.world
                  && hydra.Issued(old(hydra.State()), p.sent)
                  && ready == p.count
      {
        ghost var before, from := ContainerPass(x, w, cs[..i]), hydra.State();
        ghost var n := ContainerAdded(x, w, cs, i);
        var running := ReconcileContainer(cs[i]);
        if running {
          ready := ready + 1;
        }
        IssuesThen(hydra.token, hydra.other, old(hydra.State()), from, hydra.State(), before.sent,
                   ContainerReport(cs[i], n));
      }
      assert cs[..|cs|] == cs;
    }

    /** The body of the container loop; tells whether the container counts as ready. */
    method ReconcileContainer(c: Container) returns (running: bool)
      requires Valid()
      modifies api, hydra
      ensures hydra.token == old(hydra.token)
      ensures var v := Visit(api.outside, old(api.world), ContainerTask(api.outside.parse, c));
              && ContainerShaped(c, v.1)
              && api.world == v.0
              && hydra.Issued(old(hydra.State()), ContainerReport(c, v.1))
              && running == (AgentReport(c, v.1).status == "running")
    {
      hide Do, Run, Visit, Issues, DomainReports, DomainStatuses, ServiceOf, RouteTask, MappingTasks, Derive,
           EndpointFromRoute;
      ghost var x, w, from := api.outside, api.world, hydra.State();
      ContainerVisit(x, w, c);
      var status, error := containers.Reconcile(c);
      if error.Some? {
        var report := AgentStatus(c.id, "error", 0, "", "", []);
        assert ContainerReport(c, Visit(x, w, ContainerTask(x.parse, c)).1) == [report];
        var _ := hydra.Send(report);
        return false;
      }
      var endpoint := status.endpointURL;
      var routeEndpoint, routeError := routes.Reconcile(c);
      if routeError.None? && routeEndpoint != "" {
        endpoint := routeEndpoint;
      }
      var statuses := domains.Reconcile(c);
      ReportDomainStatuses(statuses);
      ghost var before := hydra.State();
      running := status.status == "running";
      var report := AgentStatus(c.id, status.status, status.readyReplicas, endpoint, status.activeRevision,
                                status.revisions);
      var _ := hydra.Send(report);
      IssuesThen(hydra.token, hydra.other, from, before, hydra.State(), DomainReports(statuses), [report]);
    }

    method ReportDomainStatuses(statuses: seq<DomainStatus>)
      modifies hydra
      ensures hydra.token == old(hydra.token)
      ensures hydra.Issued(old(hydra.State()), DomainReports(statuses))
    {
      hide DomainReports, Issues;
      ReportsStart();
      IssuesNone(hydra.token, hydra.other, hydra.State());
      for i := 0 to |statuses|
        invariant hydra.token == old(hydra.token)
        invariant hydra.Issued(old(hydra.State()), DomainReports(statuses[..i]))
      {
        ReportAdded(statuses, i);
        ghost var from := hydra.State();
        var s := statuses[i];
        if s.id == "" {
          assert DomainReports(statuses[..i]) + [] == DomainReports(statuses[..i]);
          continue;
        }
        var p := DomainReport(s.id, s.status, s.error);
        var _ := hydra.Send(p);
        IssuesThen(hydra.token, hydra.other, old(hydra.State()), from, hydra.State(), DomainReports(statuses[..i]),
                   [p]);
      }
      assert statuses[..|statuses|] == statuses;
    }
  }

  lemma ReportsStart()
    ensures DomainReports([]) == []
  {
  }

  /** One status more. */
  lemma ReportAdded(statuses: seq<DomainStatus>, i: nat)
    requires i < |statuses|
    ensures var s := statuses[i];
            DomainReports(statuses[..i + 1]) ==
              DomainReports(statuses[..i]) + if s.id == "" then [] else [DomainReport(s.id, s.status, s.error)]
  {
    assert statuses[..i + 1][..i] == statuses[..i];
  }

  lemma SignedNone(token: string)
    ensures Signed(token, []) == []
  {
  }

  lemma NamespacesStart(x: Outside, w: World)
    ensures NamespacePass(x, w, []) == Pass(w, [], 0)
  {
  }

  lemma ContainersStart(x: Outside, w: World)
    ensures ContainerPass(x, w, []) == Pass(w, [], 0)
  {
  }

  /** One namespace more. */
  lemma NamespaceAdded(x: Outside, w: World, nss: seq<Namespace>, i: nat)
    requires i < |nss|
    ensures var p := NamespacePass(x, w, nss[..i]);
            var v := Visit(x, p.world, NamespaceTask(x.parse, nss[i]));
            NamespacePass(x, w, nss[..i + 1]) ==
              Pass(v.0, p.sent + [NamespaceReport(nss[i], v.1)],
                   p.count + if NamespaceError(nss[i], v.1).None? then 1 else 0)
  {
    hide Visit, Run, NamespaceTask, NamespaceReports, NamespaceReport, NamespaceError, SyncedCount;
    var t := NamespaceTask(x.parse, nss[i]);
    var r := Run(x, w, NamespaceTasks(x.parse, nss[..i]));
    assert NamespaceTasks(x.parse, nss[..i + 1]) == NamespaceTasks(x.parse, nss[..i]) + [t];
    RunAppend(x, w, NamespaceTasks(x.parse, nss[..i]), [t]);
    RunOne(x, r.0, t);
    NamespaceReportsGrow(nss, i, r.1, Visit(x, r.0, t).1);
  }

  lemma NamespaceReportsGrow(nss: seq<Namespace>, i: nat, ns: seq<Node>, n: Node)
    requires i < |nss| && |ns| == i
    ensures NamespaceReports(nss[..i + 1], ns + [n]) == NamespaceReports(nss[..i], ns) + [NamespaceReport(nss[i], n)]
    ensures SyncedCount(nss[..i + 1], ns + [n]) ==
            SyncedCount(nss[..i], ns) + if NamespaceError(nss[i], n).None? then 1 else 0
  {
    hide NamespaceReport, NamespaceError;
    assert nss[..i + 1][..i] == nss[..i] && (ns + [n])[..i] == ns;
  }

  /** One container more. */
  lemma ContainerAdded(x: Outside, w: World, cs: seq<Container>, i: nat) returns (n: Node)
    requires i < |cs|
    ensures var p := ContainerPass(x, w, cs[..i]);
            var v := Visit(x, p.world, ContainerTask(x.parse, cs[i]));
            && n == v.1 && ContainerShaped(cs[i], n)
            && ContainerPass(x, w, cs[..i + 1]) ==
                 Pass(v.0, p.sent + ContainerReport(cs[i], n),
                      p.count + if AgentReport(cs[i], n).status == "running" then 1 else 0)
  {
    hide Visit, Run, ContainerReports, ReadyCount, ContainerReport, AgentReport, ContainerTask, AllShaped;
    var t := ContainerTask(x.parse, cs[i]);
    var r := Run(x, w, ContainerTasks(x.parse, cs[..i]));
    assert ContainerTasks(x.parse, cs[..i + 1]) == ContainerTasks(x.parse, cs[..i]) + [t];
    RunAppend(x, w, ContainerTasks(x.parse, cs[..i]), [t]);
    RunOne(x, r.0, t);
    n := Visit(x, r.0, t).1;
    RunShaped(x, w, cs[..i]);
    RunShaped(x, w, cs[..i + 1]);
    ContainerReportsGrow(cs, i, r.1, n);
  }

  /** A container's visit: the Service, and below a Service written the route and then the mappings. */
  lemma ContainerVisit(x: Outside, w: World, c: Container)
    ensures var k := ServiceKey(c);
            var d := Do(x, k, Upsert(ServiceOf(x.parse, c), true), At(w, k));
            var v := Visit(x, w, ContainerTask(x.parse, c));
            && ContainerShaped(c, v.1)
            && v.1.outcome == d.1
            && (d.1.Err? ==> v.0 == w[k := d.0])
            && (d.1.Ok? ==>
                  var w1 := w[k := d.0];
                  var t := RouteTask(c);
                  var e := Do(x, t.key, t.act, At(w1, t.key));
                  var r := Run(x, w1[t.key := e.0], MappingTasks(c, c.customDomains));
                  && v.0 == r.0
                  && v.1.kids[0].outcome == e.1
                  && v.1.kids[1..] == r.1)
  {
    var k := ServiceKey(c);
    var d := Do(x, k, Upsert(ServiceOf(x.parse, c), true), At(w, k));
    var w1 := w[k := d.0];
    VisitLeaf(x, w1, RouteTask(c));
    RunOne(x, w1, RouteTask(c));
    RunAppend(x, w1, [RouteTask(c)], MappingTasks(c, c.customDomains));
  }
}
