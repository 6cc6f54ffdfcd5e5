/** What the operator tells Hydra about a sync, read off what became of its tasks; and the sync as a whole. */
module Reports {
  import opened Prelude
  import opened Objects
  import opened ApiServer
  import opened Tasks
  import opened Hydra
  import opened ServiceStatus
  import opened Plan

  function StageWord(s: Stage): string {
    match s
    case Getting => "get"
    case Creating => "create"
    case Updating => "update"
    case Deleting => "delete"
  }

  function Wrapped(o: Outcome, what: string): Option<OpError> {
    match o
    case Ok(_) => None
    case Err(s, e) => Some(OpError("reconciler: " + StageWord(s) + " " + what, e))
  }

  // ----- Namespaces -----

  function NamespaceOwnError(ns: Namespace, o: Outcome): Option<OpError> {
    if ns.mode == "managed" then Wrapped(o, "namespace " + ns.k8sName)
    else if o.Err? then Some(OpError("reconciler: imported namespace " + ns.k8sName, o.cause))
    else None
  }

  function QuotaError(ns: Namespace, o: Outcome): Option<OpError> {
    Wrapped(o, "resourcequota in " + ns.k8sName)
  }

  function NamespaceError(ns: Namespace, n: Node): Option<OpError> {
    if n.outcome.Err? || n.kids == [] then NamespaceOwnError(ns, n.outcome) else QuotaError(ns, n.kids[0].outcome)
  }

  function NamespaceReport(ns: Namespace, n: Node): Payload {
    var e := NamespaceError(ns, n);
    NamespaceStatus(ns.id, if e.None? then "synced" else "error", e)
  }

  function NamespaceReports(nss: seq<Namespace>, ns: seq<Node>): (r: seq<Payload>)
    requires |nss| == |ns|
    ensures |r| == |nss|
    ensures forall i :: 0 <= i < |nss| ==> r[i] == NamespaceReport(nss[i], ns[i])
  {
    if nss == [] then []
    else NamespaceReports(nss[..|nss| - 1], ns[..|ns| - 1]) + [NamespaceReport(nss[|nss| - 1], ns[|ns| - 1])]
  }

  function SyncedCount(nss: seq<Namespace>, ns: seq<Node>): nat
    requires |nss| == |ns|
  {
    if nss == [] then 0
    else
      SyncedCount(nss[..|nss| - 1], ns[..|ns| - 1]) +
      (if NamespaceError(nss[|nss| - 1], ns[|ns| - 1]).None? then 1 else 0)
  }

  // ----- Domains -----

  datatype DomainStatus = DomainStatus(id: string, hostname: string, status: string, error: DomainError)

  function DomainStatusOf(d: CustomDomain, o: Outcome): DomainStatus {
    match o
    case Err(_, e) => DomainStatus(d.id, d.hostname, "error", Failure(e))
    case Ok(obj) =>
      if obj.Some? && obj.value.status.ready == Some("True") then DomainStatus(d.id, d.hostname, "active", NoError)
      else DomainStatus(d.id, d.hostname, "error", NotYetReady)
  }

  function DomainStatuses(ds: seq<CustomDomain>, ns: seq<Node>): (r: seq<DomainStatus>)
    requires |ds| == |ns|
    ensures |r| == |ds|
  {
    if ds == [] then []
    else DomainStatuses(ds[..|ds| - 1], ns[..|ns| - 1]) + [DomainStatusOf(ds[|ds| - 1], ns[|ns| - 1].outcome)]
  }

  /** The callbacks: one per status that carries a domain ID. */
  function DomainReports(ss: seq<DomainStatus>): seq<Payload> {
    if ss == [] then []
    else
      var s := ss[|ss| - 1];
      DomainReports(ss[..|ss| - 1]) + (if s.id == "" then [] else [DomainReport(s.id, s.status, s.error)])
  }

  // ----- Containers -----

  function EndpointFromRoute(s: Status): string {
    if s.ingressHosts == [] || s.ingressHosts[0] == "" then "" else "https://" + s.ingressHosts[0]
  }

  function RouteEndpoint(o: Outcome): string {
    if o.Ok? && o.obj.Some? then EndpointFromRoute(o.obj.value.status) else ""
  }

  /** The status a written object came back with. */
  function StatusOf(o: Outcome): Status {
    if o.Ok? && o.obj.Some? then o.obj.value.status else BLANK_STATUS
  }

  /** A container's branch: its route, then one mapping per custom domain, below a Service written. */
  predicate ContainerShaped(c: Container, n: Node) {
    n.outcome.Ok? ==> |n.kids| == 1 + |c.customDomains|
  }

  function AgentReport(c: Container, n: Node): (p: Payload)
    requires ContainerShaped(c, n)
    ensures p.AgentStatus? && p.id == c.id
  {
    if n.outcome.Err? then AgentStatus(c.id, "error", 0, "", "", [])
    else
      var st := Derive(StatusOf(n.outcome));
      var routed := RouteEndpoint(n.kids[0].outcome);
      AgentStatus(c.id, st.status, st.readyReplicas, if routed != "" then routed else st.endpointURL,
                  st.activeRevision, st.revisions)
  }

  function ContainerReport(c: Container, n: Node): seq<Payload>
    requires ContainerShaped(c, n)
  {
    (if n.outcome.Err? then [] else DomainReports(DomainStatuses(c.customDomains, n.kids[1..]))) + [AgentReport(c, n)]
  }

  ghost predicate AllShaped(cs: seq<Container>, ns: seq<Node>) {
    |cs| == |ns| && forall i :: 0 <= i < |cs| ==> ContainerShaped(cs[i], ns[i])
  }

  function ContainerReports(cs: seq<Container>, ns: seq<Node>): seq<Payload>
    requires AllShaped(cs, ns)
  {
    if cs == [] then []
    else ContainerReports(cs[..|cs| - 1], ns[..|ns| - 1]) + ContainerReport(cs[|cs| - 1], ns[|ns| - 1])
  }

  function ReadyCount(cs: seq<Container>, ns: seq<Node>): nat
    requires AllShaped(cs, ns)
  {
    if cs == [] then 0
    else
      ReadyCount(cs[..|cs| - 1], ns[..|ns| - 1]) +
      (if AgentReport(cs[|cs| - 1], ns[|ns| - 1]).status == "running" then 1 else 0)
  }

  lemma ShapedGrow(cs: seq<Container>, i: nat, ns: seq<Node>, n: Node)
    requires i < |cs| && AllShaped(cs[..i], ns) && ContainerShaped(cs[i], n)
    ensures |ns| == i && AllShaped(cs[..i + 1], ns + [n])
  {
    assert forall j :: 0 <= j < i ==> cs[..i + 1][j] == cs[..i][j];
  }

  lemma ContainerReportsGrow(cs: seq<Container>, i: nat, ns: seq<Node>, n: Node)
    requires i < |cs| && |ns| == i && AllShaped(cs[..i], ns) && AllShaped(cs[..i + 1], ns + [n])
    ensures ContainerShaped(cs[i], n)
    ensures ContainerReports(cs[..i + 1], ns + [n]) == ContainerReports(cs[..i], ns) + ContainerReport(cs[i], n)
    ensures ReadyCount(cs[..i + 1], ns + [n]) ==
            ReadyCount(cs[..i], ns) + if AgentReport(cs[i], n).status == "running" then 1 else 0
  {
    hide ContainerReport, AgentReport;
    assert (ns + [n])[i] == n;
    assert cs[..i + 1][..i] == cs[..i] && (ns + [n])[..i] == ns;
  }

  /** A run of the container part has the shape its reports need. */
  lemma {:induction false} RunShaped(x: Outside, w: World, cs: seq<Container>)
    ensures AllShaped(cs, Run(x, w, ContainerTasks(x.parse, cs)).1)
    decreases cs
  {
    if cs != [] {
      var t := ContainerTask(x.parse, cs[0]);
      var ts := ContainerTasks(x.parse, cs);
      assert ts[0] == t && ts[1..] == ContainerTasks(x.parse, cs[1..]);
      var (w1, n) := Visit(x, w, t);
      RunShaped(x, w1, cs[1..]);
      assert |t.next| == 1 + |cs[0].customDomains|;
    }
  }

  /** What a pass over a list leaves in the store, sends, and counts. */
  datatype Pass = Pass(world: World, sent: seq<Payload>, count: nat)

  function NamespacePass(x: Outside, w: World, nss: seq<Namespace>): Pass {
    var r := Run(x, w, NamespaceTasks(x.parse, nss));
    Pass(r.0, NamespaceReports(nss, r.1), SyncedCount(nss, r.1))
  }

  ghost function ContainerPass(x: Outside, w: World, cs: seq<Container>): Pass {
    var r := Run(x, w, ContainerTasks(x.parse, cs));
    RunShaped(x, w, cs);
    Pass(r.0, ContainerReports(cs, r.1), ReadyCount(cs, r.1))
  }

  // ----- One sync -----

  datatype SyncResult = SyncResult(world: World, sent: seq<Payload>)

  /** The nodes of a plan's run, part by part. */
  function NamespaceNodes(st: DesiredState, ns: seq<Node>): (r: seq<Node>)
    requires |ns| >= |st.namespaces| + |st.containers|
    ensures |r| == |st.namespaces|
  {
    ns[|ns| - |st.namespaces| - |st.containers|..|ns| - |st.containers|]
  }

  function ContainerNodes(st: DesiredState, ns: seq<Node>): (r: seq<Node>)
    requires |ns| >= |st.namespaces| + |st.containers|
    ensures |r| == |st.containers|
  {
    ns[|ns| - |st.containers|..]
  }

  ghost predicate PlanShaped(st: DesiredState, ns: seq<Node>) {
    |ns| >= |st.namespaces| + |st.containers| && AllShaped(st.containers, ContainerNodes(st, ns))
  }

  /** Everything sent after a successful pull, read off the nodes of the plan's run. */
  function SyncReports(st: DesiredState, ns: seq<Node>): seq<Payload>
    requires PlanShaped(st, ns)
  {
    var nn, cn := NamespaceNodes(st, ns), ContainerNodes(st, ns);
    NamespaceReports(st.namespaces, nn) +
    ContainerReports(st.containers, cn) +
    [ClusterStatus("reachable", SyncedCount(st.namespaces, nn), ReadyCount(st.containers, cn))]
  }

  /** A sync: `pulled` is the desired state obtained, if any; `gatekeeper` what detection says, if it succeeds. */
  ghost function Sync(x: Outside, w: World, pulled: Option<DesiredState>, gatekeeper: Option<bool>): SyncResult {
    match pulled
    case None => SyncResult(w, [PullDesiredState, ClusterStatus("unreachable", 0, 0)])
    case Some(st) =>
      var w1 := Run(x, w, PolicyTasks(gatekeeper == Some(true), st.allowedRegistries)).0;
      var n := NamespacePass(x, w1, st.namespaces);
      var c := ContainerPass(x, n.world, st.containers);
      SyncResult(c.world, [PullDesiredState] + n.sent + c.sent + [ClusterStatus("reachable", n.count, c.count)])
  }

  /** A sync with a desired state is one run of its plan, and its reports tell what became of the plan's tasks. */
  lemma SyncIsRun(x: Outside, w: World, st: DesiredState, gatekeeper: Option<bool>)
    ensures var r := Run(x, w, PlanOf(x.parse, st, gatekeeper == Some(true)));
            && PlanShaped(st, r.1)
            && Sync(x, w, Some(st), gatekeeper) == SyncResult(r.0, [PullDesiredState] + SyncReports(st, r.1))
  {
    hide Run, PolicyTasks, NamespaceTasks, ContainerTasks, NamespaceReports, ContainerReports, SyncedCount, ReadyCount;
    var p, n, c := PolicyTasks(gatekeeper == Some(true), st.allowedRegistries), NamespaceTasks(x.parse, st.namespaces),
                   ContainerTasks(x.parse, st.containers);
    RunAppend(x, w, p, n);
    RunAppend(x, w, p + n, c);
    var a := Run(x, w, p);
    var b := Run(x, a.0, n);
    var d := Run(x, b.0, c);
    RunShaped(x, b.0, st.containers);
    var r := Run(x, w, PlanOf(x.parse, st, gatekeeper == Some(true)));
    assert NamespaceNodes(st, r.1) == b.1;
    assert ContainerNodes(st, r.1) == d.1;
  }
}
