/** What a sync sends, written out request by request: every word, and when which of them is said. */
module VerbatimReports {
  import opened Prelude
  import opened Objects
  import opened ApiServer
  import opened Tasks
  import opened Locality
  import opened Settling
  import opened Hydra
  import opened ServiceStatus
  import opened Plan
  import opened Footprints
  import opened Reports
  import opened Naming
  import opened Reconcilers
  import opened Verbatim
  import opened SyncTheorems

  // ----- Namespaces -----

  ghost predicate Verb(s: Stage, verb: string) {
    match s
    case Getting => verb == "get"
    case Creating => verb == "create"
    case Updating => verb == "update"
    case Deleting => verb == "delete"
  }

  /** The namespace task and its quota task succeeded. */
  ghost predicate NamespaceDone(n: Node) {
    n.outcome.Ok? && |n.kids| == 1 && n.kids[0].outcome.Ok?
  }

  /** "synced" exactly for what succeeded; otherwise the failing call in words, and what it answered. */
  ghost predicate NamespaceTold(ns: Namespace, n: Node, p: Payload) {
    && (NamespaceDone(n) ==> p == NamespaceStatus(ns.id, "synced", None))
    && (n.outcome.Err? && ns.mode == "managed" ==>
          forall verb :: Verb(n.outcome.stage, verb) ==>
            p == NamespaceStatus(ns.id, "error",
                   Some(OpError("reconciler: " + verb + " " + ("namespace " + ns.k8sName), n.outcome.cause))))
    && (n.outcome.Err? && ns.mode != "managed" ==>
          p == NamespaceStatus(ns.id, "error",
                 Some(OpError("reconciler: imported namespace " + ns.k8sName, n.outcome.cause))))
    && (n.outcome.Ok? && |n.kids| == 1 && n.kids[0].outcome.Err? ==>
          forall verb :: Verb(n.kids[0].outcome.stage, verb) ==>
            p == NamespaceStatus(ns.id, "error",
                   Some(OpError("reconciler: " + verb + " " + ("resourcequota in " + ns.k8sName),
                                 n.kids[0].outcome.cause))))
  }

  lemma NamespaceIsTold(ns: Namespace, n: Node)
    ensures NamespaceTold(ns, n, NamespaceReport(ns, n))
  {
    forall verb, stage: Stage | Verb(stage, verb)
      ensures verb == StageWord(stage)
    {
    }
  }

  /** The errors that only reach the log, in words. */
  lemma LoggedErrors(c: Container, name: string, o: Outcome, verb: string, t: Task)
    requires o.Err? && Verb(o.stage, verb) && Lowered(c.id, name)
    ensures ServiceError(c, o) ==
            Some(OpError("reconciler: " + verb + " " + ("service " + c.namespaceK8sName + "/" + ("ksvc-" + name)),
                         o.cause))
    ensures RouteError(c, o) ==
            Some(OpError("reconciler: " + verb + " " + ("route " + c.namespaceK8sName + "/" + ("ksvc-" + name)),
                         o.cause))
    ensures t.key.kind.TemplateKind? ==>
              StepError(t, o.cause) == OpError("reconciler: constraint template " + t.key.name, o.cause)
    ensures t.key.kind.ConstraintKind? ==>
              StepError(t, o.cause) == OpError("reconciler: constraint " + t.key.name, o.cause)
  {
    LoweredIs(c.id, name);
  }

  // ----- Domains -----

  /** The mapping was written, and the object answered is ready. */
  ghost predicate MappingReady(o: Outcome) {
    o.Ok? && o.obj.Some? && o.obj.value.status.ready == Some("True")
  }

  /** "active" exactly if the mapping is ready; else "error", for what failed or for not being ready yet. */
  ghost predicate DomainTold(d: CustomDomain, o: Outcome, p: Payload) {
    && (MappingReady(o) ==> p == DomainReport(d.id, "active", NoError))
    && (!MappingReady(o) && o.Ok? ==> p == DomainReport(d.id, "error", NotYetReady))
    && (o.Err? ==> p == DomainReport(d.id, "error", Failure(o.cause)))
  }

  /** One callback for each domain that has an ID, in order. */
  ghost predicate DomainsTold(ds: seq<CustomDomain>, ns: seq<Node>, r: seq<Payload>)
    requires |ds| == |ns|
    decreases |ds|
  {
    if ds == [] then r == []
    else
      var l := |ds| - 1;
      if ds[l].id == "" then DomainsTold(ds[..l], ns[..l], r)
      else r != [] && DomainTold(ds[l], ns[l].outcome, r[|r| - 1]) && DomainsTold(ds[..l], ns[..l], r[..|r| - 1])
  }

  lemma {:induction false} DomainsAreTold(ds: seq<CustomDomain>, ns: seq<Node>)
    requires |ds| == |ns|
    ensures DomainsTold(ds, ns, DomainReports(DomainStatuses(ds, ns)))
    decreases |ds|
  {
    if ds != [] {
      var l := |ds| - 1;
      var ss := DomainStatuses(ds, ns);
      assert ss[..l] == DomainStatuses(ds[..l], ns[..l]);
      DomainsAreTold(ds[..l], ns[..l]);
      var r := DomainReports(ss);
      if ds[l].id == "" {
        assert r == DomainReports(ss[..l]);
      } else {
        assert r[..|r| - 1] == DomainReports(ss[..l]);
      }
    }
  }

  // ----- Containers -----

  /** The Route was written, and the object answered names a host: the first one. */
  ghost predicate Routed(o: Outcome, host: string) {
    && o.Ok? && o.obj.Some?
    && o.obj.value.status.ingressHosts != [] && o.obj.value.status.ingressHosts[0] == host
    && host != ""
  }

  /**
   The agent report: "error" and nothing else for a Service that was not written; otherwise the
   snapshot of the object answered, with the Route's host as the endpoint if there is one.
   */
  ghost predicate AgentTold(c: Container, n: Node, p: Payload)
    requires ContainerShaped(c, n)
  {
    && (n.outcome.Err? ==> p == AgentStatus(c.id, "error", 0, "", "", []))
    && (n.outcome.Ok? && n.outcome.obj.Some? ==>
          exists out ::
            && Snapshot(n.outcome.obj.value.status, out)
            && (forall host :: Routed(n.kids[0].outcome, host) ==>
                  p == AgentStatus(c.id, out.status, out.readyReplicas, "https://" + host, out.activeRevision,
                                   out.revisions))
            && ((forall host :: !Routed(n.kids[0].outcome, host)) ==>
                  p == AgentStatus(c.id, out.status, out.readyReplicas, out.endpointURL, out.activeRevision,
                                   out.revisions)))
  }

  /** A container's callbacks, then its agent report; only the latter if its Service was not written. */
  ghost predicate ContainerTold(c: Container, n: Node, r: seq<Payload>)
    requires ContainerShaped(c, n)
  {
    && r != []
    && AgentTold(c, n, r[|r| - 1])
    && (if n.outcome.Err? then |r| == 1 else DomainsTold(c.customDomains, n.kids[1..], r[..|r| - 1]))
  }

  ghost predicate ContainersTold(cs: seq<Container>, ns: seq<Node>, r: seq<Payload>)
    requires AllShaped(cs, ns)
    decreases |cs|
  {
    if cs == [] then r == []
    else
      var l := |cs| - 1;
      exists k: nat :: k <= |r| && ContainersTold(cs[..l], ns[..l], r[..k]) && ContainerTold(cs[l], ns[l], r[k..])
  }

  lemma AgentIsTold(c: Container, n: Node)
    requires ContainerShaped(c, n)
    ensures AgentTold(c, n, AgentReport(c, n))
  {
    hide Snapshot, Derive;
    if n.outcome.Ok? && n.outcome.obj.Some? {
      var s, o := n.outcome.obj.value.status, n.kids[0].outcome;
      DeriveIsSnapshot(s);
      if o.Ok? && o.obj.Some? && o.obj.value.status.ingressHosts != [] && o.obj.value.status.ingressHosts[0] != "" {
        assert Routed(o, o.obj.value.status.ingressHosts[0]);
      }
    }
  }

  lemma ContainerIsTold(c: Container, n: Node)
    requires ContainerShaped(c, n)
    ensures ContainerTold(c, n, ContainerReport(c, n))
  {
    hide AgentReport, AgentTold, DomainsTold, DomainReports, DomainStatuses;
    var r := ContainerReport(c, n);
    AgentIsTold(c, n);
    if n.outcome.Ok? {
      DomainsAreTold(c.customDomains, n.kids[1..]);
      assert r[..|r| - 1] == DomainReports(DomainStatuses(c.customDomains, n.kids[1..]));
    }
  }

  lemma {:induction false} ContainersAreTold(cs: seq<Container>, ns: seq<Node>)
    requires AllShaped(cs, ns)
    ensures ContainersTold(cs, ns, ContainerReports(cs, ns))
    decreases |cs|
  {
    hide ContainerReport, ContainerTold;
    if cs != [] {
      var l := |cs| - 1;
      ContainersAreTold(cs[..l], ns[..l]);
      ContainerIsTold(cs[l], ns[l]);
      var a, b := ContainerReports(cs[..l], ns[..l]), ContainerReport(cs[l], ns[l]);
      var r := ContainerReports(cs, ns);
      assert r[..|a|] == a && r[|a|..] == b;
    }
  }

  /** A container is reported running exactly if its Service was written and the object answered is ready. */
  lemma RunningMeans(c: Container, n: Node)
    requires ContainerShaped(c, n) && (n.outcome.Ok? ==> n.outcome.obj.Some?)
    ensures AgentReport(c, n).status == "running" <==>
            n.outcome.Ok? && n.outcome.obj.value.status.ready == Some("True")
  {
    hide Derive;
    AgentIsTold(c, n);
    assert |"running"| == 7 && |"error"| == 5;
    if n.outcome.Ok? {
      DeriveIsSnapshot(n.outcome.obj.value.status);
    }
  }

  // ----- Counting -----

  ghost predicate SaysSynced(p: Payload) {
    p.NamespaceStatus? && p.syncStatus == "synced"
  }

  ghost predicate SaysRunning(p: Payload) {
    p.AgentStatus? && p.status == "running"
  }

  ghost function SyncedAt(s: seq<Payload>): set<nat> {
    set i: nat | i < |s| && SaysSynced(s[i])
  }

  ghost function RunningAt(s: seq<Payload>): set<nat> {
    set i: nat | i < |s| && SaysRunning(s[i])
  }

  lemma SyncedGrows(s: seq<Payload>)
    requires s != []
    ensures var l := |s| - 1;
            |SyncedAt(s)| == |SyncedAt(s[..l])| + if SaysSynced(s[l]) then 1 else 0
  {
    hide SaysSynced;
    var l := |s| - 1;
    assert SyncedAt(s) == SyncedAt(s[..l]) + if SaysSynced(s[l]) then {l} else {};
    assert l !in SyncedAt(s[..l]);
  }

  lemma RunningGrows(s: seq<Payload>)
    requires s != []
    ensures var l := |s| - 1;
            |RunningAt(s)| == |RunningAt(s[..l])| + if SaysRunning(s[l]) then 1 else 0
  {
    hide SaysRunning;
    var l := |s| - 1;
    assert RunningAt(s) == RunningAt(s[..l]) + if SaysRunning(s[l]) then {l} else {};
    assert l !in RunningAt(s[..l]);
  }

  lemma {:induction false} CountsAre(s: seq<Payload>)
    ensures |Flat(SyncedIdOf, s)| == |SyncedAt(s)| && |Flat(RunningIdOf, s)| == |RunningAt(s)|
    decreases |s|
  {
    hide Flat, SyncedAt, RunningAt;
    if s == [] {
      FlatNone(SyncedIdOf);
      FlatNone(RunningIdOf);
      NothingAt();
    } else {
      var l := |s| - 1;
      CountsAre(s[..l]);
      assert s == s[..l] + [s[l]];
      FlatAppend(SyncedIdOf, s[..l], [s[l]]);
      FlatAppend(RunningIdOf, s[..l], [s[l]]);
      FlatOne(SyncedIdOf, s[l]);
      FlatOne(RunningIdOf, s[l]);
      SyncedGrows(s);
      RunningGrows(s);
    }
  }

  lemma NothingAt()
    ensures |SyncedAt([])| == 0 && |RunningAt([])| == 0
  {
    assert SyncedAt([]) == {} && RunningAt([]) == {};
  }

  // ----- The whole trace -----

  /** The pull, the namespaces in order, the containers in order, and the cluster with its two counts. */
  ghost predicate SyncTold(st: DesiredState, ns: seq<Node>, sent: seq<Payload>)
    requires PlanShaped(st, ns)
  {
    var k := 1 + |st.namespaces|;
    && |sent| > k
    && sent[0] == PullDesiredState
    && (forall i :: 0 <= i < |st.namespaces| ==>
        NamespaceTold(st.namespaces[i], NamespaceNodes(st, ns)[i], sent[1 + i]))
    && ContainersTold(st.containers, ContainerNodes(st, ns), sent[k..|sent| - 1])
    && sent[|sent| - 1] == ClusterStatus("reachable", |SyncedAt(sent)|, |RunningAt(sent)|)
  }

  lemma ReportsAreTold(st: DesiredState, ns: seq<Node>)
    requires PlanShaped(st, ns)
    ensures SyncTold(st, ns, [PullDesiredState] + SyncReports(st, ns))
  {
    hide NamespaceTold, ContainersTold, NamespaceReport, ContainerReports, SyncedCount, ReadyCount, AllShaped, Flat,
         IdsDue;
    var nn, cn := NamespaceNodes(st, ns), ContainerNodes(st, ns);
    var a, b := NamespaceReports(st.namespaces, nn), ContainerReports(st.containers, cn);
    var last := ClusterStatus("reachable", SyncedCount(st.namespaces, nn), ReadyCount(st.containers, cn));
    var sent := [PullDesiredState] + SyncReports(st, ns);
    assert sent == [PullDesiredState] + (a + b) + [last];
    forall i | 0 <= i < |st.namespaces|
      ensures NamespaceTold(st.namespaces[i], nn[i], sent[1 + i])
    {
      NamespaceIsTold(st.namespaces[i], nn[i]);
    }
    ContainersAreTold(st.containers, cn);
    assert sent[1 + |st.namespaces|..|sent| - 1] == b;
    ReportsAccounting(st, ns);
    CountsAre(a + b);
    CountsShift(a + b, last);
  }

  lemma CountsShift(body: seq<Payload>, last: Payload)
    requires last.ClusterStatus?
    ensures var s := [PullDesiredState] + body + [last];
            |SyncedAt(s)| == |SyncedAt(body)| && |RunningAt(s)| == |RunningAt(body)|
  {
    hide Flat, SyncedAt, RunningAt;
    var s := [PullDesiredState] + body + [last];
    CountsAre(s);
    CountsAre(body);
    FlatAppend(SyncedIdOf, [PullDesiredState] + body, [last]);
    FlatAppend(SyncedIdOf, [PullDesiredState], body);
    FlatAppend(RunningIdOf, [PullDesiredState] + body, [last]);
    FlatAppend(RunningIdOf, [PullDesiredState], body);
    FlatOne(SyncedIdOf, PullDesiredState);
    FlatOne(SyncedIdOf, last);
    FlatOne(RunningIdOf, PullDesiredState);
    FlatOne(RunningIdOf, last);
  }

  /** What a sync sends, whatever fails in it, told by what became of its tasks. */
  lemma SyncSays(x: Outside, w: World, st: DesiredState, gatekeeper: Option<bool>)
    ensures SyncTold(st, SyncRun(x, w, st, gatekeeper).1, Sync(x, w, Some(st), gatekeeper).sent)
    ensures Sync(x, w, None, gatekeeper).sent == [PullDesiredState, ClusterStatus("unreachable", 0, 0)]
  {
    hide SyncTold, SyncReports, SyncRun, PlanShaped;
    var r := SyncRun(x, w, st, gatekeeper);
    ReportsAreTold(st, r.1);
  }

  // ----- Undisturbed syncs -----

  /** The namespace was asked to be made, or was there. */
  ghost predicate Expected(w: World, ns: Namespace) {
    ns.mode == "managed" || At(w, Key(NamespaceKind, "", ns.k8sName)).obj.Some?
  }

  /** Each of a container's tasks succeeded and was answered with the object that is now in the store. */
  ghost predicate ReadsStore(c: Container, n: Node, v: World) {
    && At(v, ServiceKey(c)).obj.Some? && n.outcome == Ok(At(v, ServiceKey(c)).obj)
    && |n.kids| == 1 + |c.customDomains|
    && n.kids[0].outcome == Ok(At(v, RouteKey(c)).obj)
    && forall j :: 0 <= j < |c.customDomains| ==>
         && At(v, MappingKey(c, c.customDomains[j].hostname)).obj.Some?
         && n.kids[1 + j].outcome == Ok(At(v, MappingKey(c, c.customDomains[j].hostname)).obj)
  }

  lemma NamespaceSays(x: Outside, w: World, v: World, ns: Namespace)
    requires CalmBetween(x, w, v) && ReachedOne(x, w, v, NamespaceTask(x.parse, ns))
    ensures var n := Branch(x, w, NamespaceTask(x.parse, ns));
            if Expected(w, ns) then NamespaceDone(n) else n.outcome == Err(Getting, NotFound) && ns.mode != "managed"
  {
    hide Do;
    var t, q := NamespaceTask(x.parse, ns), QuotaTask(x.parse, ns);
    assert CalmCalls(x, t.key, At(w, t.key), At(v, t.key));
    CalmDo(x, t.key, t.act, At(w, t.key));
    assert t.next == [q] && t.next[0] == q;
    if Do(x, t.key, t.act, At(w, t.key)).1.Ok? {
      ReachedAt(x, w, v, t.next, 0);
      assert CalmCalls(x, q.key, At(w, q.key), At(v, q.key));
      CalmDo(x, q.key, q.act, At(w, q.key));
      ParallelOne(x, w, q);
    }
  }

  /** One undisturbed task that requires nothing: what it answers. */
  lemma TaskSays(x: Outside, w: World, v: World, t: Task)
    requires CalmBetween(x, w, v) && ReachedOne(x, w, v, t) && !t.act.Require?
    ensures Branch(x, w, t).outcome == Ok(if t.act.Upsert? then At(v, t.key).obj else None)
    ensures t.act.Upsert? ==> At(v, t.key).obj.Some?
    ensures t.act.Remove? ==> At(v, t.key).obj.None?
    ensures Branch(x, w, t).kids == Parallel(x, w, t.next) && Reached(x, w, v, t.next)
  {
    hide Do;
    assert CalmCalls(x, t.key, At(w, t.key), At(v, t.key));
    CalmDo(x, t.key, t.act, At(w, t.key));
  }

  lemma ContainerSays(x: Outside, w: World, v: World, c: Container)
    requires CalmBetween(x, w, v) && ReachedOne(x, w, v, ContainerTask(x.parse, c))
    ensures ReadsStore(c, Branch(x, w, ContainerTask(x.parse, c)), v)
  {
    hide ReachedOne, Reached, Branch, Parallel, CalmBetween;
    var t := ContainerTask(x.parse, c);
    TaskSays(x, w, v, t);
    forall j | 0 <= j < |t.next|
      ensures ReachedOne(x, w, v, t.next[j]) && Parallel(x, w, t.next)[j] == Branch(x, w, t.next[j])
    {
      ReachedAt(x, w, v, t.next, j);
      ParallelAt(x, w, t.next, j);
    }
    assert t.next[0] == RouteTask(c);
    TaskSays(x, w, v, t.next[0]);
    forall j | 0 <= j < |c.customDomains|
      ensures At(v, MappingKey(c, c.customDomains[j].hostname)).obj.Some?
      ensures Parallel(x, w, t.next)[1 + j].outcome == Ok(At(v, MappingKey(c, c.customDomains[j].hostname)).obj)
    {
      assert t.next[1 + j] == MappingTask(c, c.customDomains[j]);
      TaskSays(x, w, v, t.next[1 + j]);
    }
  }

  /** "synced" for a namespace that was to be made or was there; for another one, that it was not found. */
  ghost predicate NamespaceSaid(w: World, ns: Namespace, p: Payload) {
    p == if Expected(w, ns) then NamespaceStatus(ns.id, "synced", None)
         else NamespaceStatus(ns.id, "error", Some(OpError("reconciler: imported namespace " + ns.k8sName, NotFound)))
  }

  lemma ToldIsSaid(w: World, ns: Namespace, n: Node, p: Payload)
    requires NamespaceTold(ns, n, p)
    requires if Expected(w, ns) then NamespaceDone(n) else n.outcome == Err(Getting, NotFound) && ns.mode != "managed"
    ensures NamespaceSaid(w, ns, p)
  {
  }

  lemma NodesSay(x: Outside, w: World, st: DesiredState, g: bool)
    requires DistinctKeys(st) && CalmBetween(x, w, Run(x, w, PlanOf(x.parse, st, g)).0)
    ensures
      var r := Run(x, w, PlanOf(x.parse, st, g));
      && PlanShaped(st, r.1)
      && (forall i :: 0 <= i < |st.namespaces| ==>
            var n := NamespaceNodes(st, r.1)[i];
            if Expected(w, st.namespaces[i]) then NamespaceDone(n)
            else n.outcome == Err(Getting, NotFound) && st.namespaces[i].mode != "managed")
      && (forall i :: 0 <= i < |st.containers| ==> ReadsStore(st.containers[i], ContainerNodes(st, r.1)[i], r.0))
  {
    hide Run, Parallel, PlanOf, DistinctKeys, Unique, Foot, Derived, Branch, Reached, ReachedOne, NamespaceTask,
         ContainerTask, CalmBetween, ReadsStore, Expected, NamespaceDone, AllShaped;
    var plan := PlanOf(x.parse, st, g);
    PlanFoot(x.parse, st, g);
    PlanHolds(x.parse, st, g);
    NodesAreBranches(x, w, st, g);
    RunReaches(x, w, plan);
    var v, c := Run(x, w, plan).0, |plan| - |st.containers|;
    forall i | 0 <= i < |st.namespaces|
      ensures var n := NamespaceNodes(st, Run(x, w, plan).1)[i];
              if Expected(w, st.namespaces[i]) then NamespaceDone(n)
              else n.outcome == Err(Getting, NotFound) && st.namespaces[i].mode != "managed"
    {
      ParallelAt(x, w, NamespaceTasks(x.parse, st.namespaces), i);
      ReachedAt(x, w, v, plan, c - |st.namespaces| + i);
      NamespaceSays(x, w, v, st.namespaces[i]);
    }
    forall i | 0 <= i < |st.containers|
      ensures ReadsStore(st.containers[i], ContainerNodes(st, Run(x, w, plan).1)[i], v)
    {
      ParallelAt(x, w, ContainerTasks(x.parse, st.containers), i);
      ReachedAt(x, w, v, plan, c + i);
      ContainerSays(x, w, v, st.containers[i]);
    }
  }

  /**
   What a sync sends when none of its own calls fails or is interfered with: "synced" for every
   namespace that was to be made or was there, an error in words for the others, and for each container
   the snapshot of the Service, the Route and the mappings that the store now holds.
   */
  lemma CalmSyncSays(x: Outside, w: World, st: DesiredState, gatekeeper: Option<bool>)
    requires DistinctKeys(st) && CalmBetween(x, w, Sync(x, w, Some(st), gatekeeper).world)
    ensures
      var r, sent := SyncRun(x, w, st, gatekeeper), Sync(x, w, Some(st), gatekeeper).sent;
      && SyncTold(st, r.1, sent)
      && (forall i :: 0 <= i < |st.namespaces| ==> NamespaceSaid(w, st.namespaces[i], sent[1 + i]))
      && (forall i :: 0 <= i < |st.containers| ==> ReadsStore(st.containers[i], ContainerNodes(st, r.1)[i], r.0))
  {
    hide Run, PlanOf, DistinctKeys, Sync, SyncReports, CalmBetween, ReadsStore, ContainersTold, Expected, NamespaceTold,
         NamespaceSaid, NamespaceDone, AllShaped, SyncedAt, RunningAt;
    SyncSays(x, w, st, gatekeeper);
    NodesSay(x, w, st, gatekeeper == Some(true));
    var r, sent := SyncRun(x, w, st, gatekeeper), Sync(x, w, Some(st), gatekeeper).sent;
    forall i | 0 <= i < |st.namespaces|
      ensures NamespaceSaid(w, st.namespaces[i], sent[1 + i])
    {
      ToldIsSaid(w, st.namespaces[i], NamespaceNodes(st, r.1)[i], sent[1 + i]);
    }
  }
}
