/** What every sync guarantees, over all desired states, stores, failures and interference. */
module SyncTheorems {
  import opened Prelude
  import opened Objects
  import opened ApiServer
  import opened Tasks
  import opened Locality
  import opened Settling
  import opened Hydra
  import opened ServiceStatus
  import opened Plan
  import opened Footprints
  import opened Reports

  // ----- Frame -----

  /** Whatever fails, a sync leaves every key not derived from the desired state exactly as it was. */
  lemma SyncFrame(x: Outside, w: World, st: DesiredState, gatekeeper: Option<bool>, k: Key)
    requires !Derived(st, gatekeeper == Some(true), k)
    ensures At(Sync(x, w, Some(st), gatekeeper).world, k) == At(w, k)
  {
    hide Run, Sync, Derived, SyncReports;
    SyncIsRun(x, w, st, gatekeeper);
    PlanFoot(x.parse, st, gatekeeper == Some(true));
    RunWrites(x, w, PlanOf(x.parse, st, gatekeeper == Some(true)));
  }

  // ----- Each entry on its own -----

  /** With distinct keys, each listed entry's node is its branch on the initial store. */
  lemma NodesAreBranches(x: Outside, w: World, st: DesiredState, g: bool)
    requires Unique(PlanOf(x.parse, st, g))
    ensures
      var ns := Run(x, w, PlanOf(x.parse, st, g)).1;
      && PlanShaped(st, ns)
      && NamespaceNodes(st, ns) == Parallel(x, w, NamespaceTasks(x.parse, st.namespaces))
      && ContainerNodes(st, ns) == Parallel(x, w, ContainerTasks(x.parse, st.containers))
  {
    hide Run, Parallel, Foot, Unique, PolicyTasks, NamespaceTasks, ContainerTasks, DistinctKeys, AllShaped, Sync,
         SyncReports;
    SyncIsRun(x, w, st, if g then Some(true) else None);
    var p, n, c := PolicyTasks(g, st.allowedRegistries), NamespaceTasks(x.parse, st.namespaces),
                   ContainerTasks(x.parse, st.containers);
    RunIsParallel(x, w, PlanOf(x.parse, st, g));
    ParallelAppend(x, w, p, n);
    ParallelAppend(x, w, p + n, c);
  }

  // ----- Isolation -----

  /** Two settings that differ only in what befalls calls on the keys of `hit`. */
  ghost predicate DifferOnlyAt(x: Outside, y: Outside, hit: iset<Key>) {
    && x.subresource == y.subresource
    && x.parse == y.parse
    && forall k, n: nat :: k !in hit ==> x.fate(k, n) == y.fate(k, n)
  }

  /** The run behind a sync: its final store, and the nodes its reports are read off. */
  ghost function SyncRun(x: Outside, w: World, st: DesiredState, gatekeeper: Option<bool>): (r: (World, seq<Node>))
    ensures PlanShaped(st, r.1)
    ensures Sync(x, w, Some(st), gatekeeper) == SyncResult(r.0, [PullDesiredState] + SyncReports(st, r.1))
  {
    SyncIsRun(x, w, st, gatekeeper);
    Run(x, w, PlanOf(x.parse, st, gatekeeper == Some(true)))
  }

  ghost predicate Spared(ks: set<Key>, hit: iset<Key>) {
    forall k :: k in ks ==> k !in hit
  }

  ghost predicate SameObjects(ks: set<Key>, w: World, v: World) {
    forall k :: k in ks ==> At(w, k) == At(v, k)
  }

  ghost predicate SameForContainer(c: Container, w: World, n: Node, v: World, m: Node)
    requires ContainerShaped(c, n) && ContainerShaped(c, m)
  {
    ContainerReport(c, n) == ContainerReport(c, m) && SameObjects(ContainerFoot(c), w, v)
  }

  ghost predicate SameForNamespace(ns: Namespace, w: World, n: Node, v: World, m: Node) {
    NamespaceReport(ns, n) == NamespaceReport(ns, m) && SameObjects(NamespaceFoot(ns), w, v)
  }

  /**
   Failures are contained. If what befalls calls on the keys of `hit` changes in any way, every
   container and every namespace none of whose keys is hit ends with the same objects and sends
   the same reports. Refusing a container's Create because its namespace is missing is something
   that befalls the container's own keys; Homes.StrictIsolation follows it back to the namespace.
   */
  lemma Isolation(x: Outside, y: Outside, w: World, st: DesiredState, gatekeeper: Option<bool>, hit: iset<Key>)
    requires DistinctKeys(st) && DifferOnlyAt(x, y, hit)
    ensures
      var a, b := SyncRun(x, w, st, gatekeeper), SyncRun(y, w, st, gatekeeper);
      && (forall i :: 0 <= i < |st.containers| && Spared(ContainerFoot(st.containers[i]), hit) ==>
            SameForContainer(st.containers[i], a.0, ContainerNodes(st, a.1)[i], b.0, ContainerNodes(st, b.1)[i]))
      && (forall i :: 0 <= i < |st.namespaces| && Spared(NamespaceFoot(st.namespaces[i]), hit) ==>
            SameForNamespace(st.namespaces[i], a.0, NamespaceNodes(st, a.1)[i], b.0, NamespaceNodes(st, b.1)[i]))
  {
    hide Run, Sync, ContainerReport, NamespaceReport, ContainerFoot, NamespaceFoot, PlanOf, SyncReports, DifferOnlyAt,
         DistinctKeys, Spared, SameObjects;
    SameParser(x, y, hit);
    NodesIsolated(x, y, w, st, gatekeeper == Some(true), hit);
  }

  lemma NodesIsolated(x: Outside, y: Outside, w: World, st: DesiredState, g: bool, hit: iset<Key>)
    requires DistinctKeys(st) && DifferOnlyAt(x, y, hit)
    ensures
      var a, b := Run(x, w, PlanOf(x.parse, st, g)), Run(y, w, PlanOf(x.parse, st, g));
      && |a.1| == |b.1| >= |st.namespaces| + |st.containers|
      && (forall i :: 0 <= i < |st.containers| && Spared(ContainerFoot(st.containers[i]), hit) ==>
            ContainerNodes(st, a.1)[i] == ContainerNodes(st, b.1)[i] &&
            SameObjects(ContainerFoot(st.containers[i]), a.0, b.0))
      && (forall i :: 0 <= i < |st.namespaces| && Spared(NamespaceFoot(st.namespaces[i]), hit) ==>
            NamespaceNodes(st, a.1)[i] == NamespaceNodes(st, b.1)[i] &&
            SameObjects(NamespaceFoot(st.namespaces[i]), a.0, b.0))
  {
    hide Run, ContainerFoot, NamespaceFoot, PlanOf, DifferOnlyAt, DistinctKeys, Derived, Foot, Unique, Spared,
         SameObjects;
    var plan := PlanOf(x.parse, st, g);
    PlanFoot(x.parse, st, g);
    PlanRoots(x.parse, st, g);
    var a, b := Run(x, w, plan), Run(y, w, plan);
    forall i | 0 <= i < |st.containers| && Spared(ContainerFoot(st.containers[i]), hit)
      ensures ContainerNodes(st, a.1)[i] == ContainerNodes(st, b.1)[i] &&
              SameObjects(ContainerFoot(st.containers[i]), a.0, b.0)
    {
      TreeIsolated(x, y, w, plan, hit, |plan| - |st.containers| + i);
    }
    forall i | 0 <= i < |st.namespaces| && Spared(NamespaceFoot(st.namespaces[i]), hit)
      ensures NamespaceNodes(st, a.1)[i] == NamespaceNodes(st, b.1)[i] &&
              SameObjects(NamespaceFoot(st.namespaces[i]), a.0, b.0)
    {
      TreeIsolated(x, y, w, plan, hit, |plan| - |st.containers| - |st.namespaces| + i);
    }
  }

  lemma SameParser(x: Outside, y: Outside, hit: iset<Key>)
    requires DifferOnlyAt(x, y, hit)
    ensures x.parse == y.parse
  {
  }

  /** Where each entry's tree stands in the plan, and the keys it covers. */
  lemma PlanRoots(parse: Parser, st: DesiredState, g: bool)
    ensures
      var plan := PlanOf(parse, st, g);
      var nss, cs := st.namespaces, st.containers;
      && |plan| >= |nss| + |cs|
      && (forall i :: 0 <= i < |nss| ==> Foot([plan[|plan| - |cs| - |nss| + i]]) == NamespaceFoot(nss[i]))
      && (forall i :: 0 <= i < |cs| ==> Foot([plan[|plan| - |cs| + i]]) == ContainerFoot(cs[i]))
  {
    hide Foot, ContainerFoot, NamespaceFoot, PlanOf;
    var plan := PlanOf(parse, st, g);
    var nss, cs := st.namespaces, st.containers;
    PlanHolds(parse, st, g);
    forall i | 0 <= i < |nss|
      ensures Foot([plan[|plan| - |cs| - |nss| + i]]) == NamespaceFoot(nss[i])
    {
      NamespaceTaskFoot(parse, nss[i]);
    }
    forall i | 0 <= i < |cs|
      ensures Foot([plan[|plan| - |cs| + i]]) == ContainerFoot(cs[i])
    {
      ContainerTaskFoot(parse, cs[i]);
    }
  }

  /** A tree none of whose keys is hit does the same and leaves its keys the same. */
  lemma TreeIsolated(x: Outside, y: Outside, w: World, ts: seq<Task>, hit: iset<Key>, i: nat)
    requires Unique(ts) && DifferOnlyAt(x, y, hit)
    requires i < |ts| && Spared(Foot([ts[i]]), hit)
    ensures Run(x, w, ts).1[i] == Run(y, w, ts).1[i]
    ensures SameObjects(Foot([ts[i]]), Run(x, w, ts).0, Run(y, w, ts).0)
  {
    hide Run, Parallel, Branch, Foot, Unique, Cells;
    RunIsParallel(x, w, ts);
    RunIsParallel(y, w, ts);
    ParallelAt(x, w, ts, i);
    ParallelAt(y, w, ts, i);
    BranchLocal(x, w, y, w, ts[i]);
    forall k | k in Foot([ts[i]])
      ensures At(Run(x, w, ts).0, k) == At(Run(y, w, ts).0, k)
    {
      TreeAlone(x, w, ts, i, k);
      TreeAlone(y, w, ts, i, k);
    }
  }

  /** The status reported for the j-th custom domain of a container whose Service was written. */
  function DomainOutcome(c: Container, n: Node, j: nat): DomainStatus
    requires ContainerShaped(c, n) && n.outcome.Ok? && j < |c.customDomains|
  {
    DomainStatusOf(c.customDomains[j], n.kids[1 + j].outcome)
  }

  /** Two runs, ending in v and u, that differ for c at most where a Route or hostname of it is hit. */
  ghost predicate SameWithin(c: Container, hit: iset<Key>, v: World, n: Node, u: World, m: Node)
    requires ContainerShaped(c, n) && ContainerShaped(c, m)
  {
    && n.outcome == m.outcome
    && At(v, ServiceKey(c)) == At(u, ServiceKey(c))
    && (RouteKey(c) !in hit ==> AgentReport(c, n) == AgentReport(c, m) && At(v, RouteKey(c)) == At(u, RouteKey(c)))
    && (forall j :: 0 <= j < |c.customDomains| && MappingKey(c, c.customDomains[j].hostname) !in hit ==>
          && At(v, MappingKey(c, c.customDomains[j].hostname)) == At(u, MappingKey(c, c.customDomains[j].hostname))
          && (n.outcome.Ok? ==> DomainOutcome(c, n, j) == DomainOutcome(c, m, j)))
  }

  /**
   Failures are contained within a container too. As long as its Service is not hit, hits on some
   of its hostnames or on its Route reach nothing else of it: not the Service, not the Route or the
   agent report (unless the Route is hit), not the mappings and statuses of its other hostnames.
   */
  lemma IsolationWithin(x: Outside, y: Outside, w: World, st: DesiredState, gatekeeper: Option<bool>, hit: iset<Key>,
                        i: nat)
    requires DistinctKeys(st) && DifferOnlyAt(x, y, hit)
    requires i < |st.containers| && ServiceKey(st.containers[i]) !in hit
    ensures
      var a, b := SyncRun(x, w, st, gatekeeper), SyncRun(y, w, st, gatekeeper);
      SameWithin(st.containers[i], hit, a.0, ContainerNodes(st, a.1)[i], b.0, ContainerNodes(st, b.1)[i])
  {
    hide Run, PlanOf, DistinctKeys, Unique, Foot, Derived, Sync, SyncReports, Branch, DifferOnlyAt, SameWithin,
         ContainerTask, Parallel, ReachedOne, Reached, NamespaceTasks;
    var g := gatekeeper == Some(true);
    var c := st.containers[i];
    var plan, t := PlanOf(x.parse, st, g), ContainerTask(x.parse, c);
    SameParser(x, y, hit);
    PlanFoot(x.parse, st, g);
    NodesAreBranches(x, w, st, g);
    NodesAreBranches(y, w, st, g);
    ParallelAt(x, w, ContainerTasks(x.parse, st.containers), i);
    ParallelAt(y, w, ContainerTasks(x.parse, st.containers), i);
    PlanHolds(x.parse, st, g);
    RunReaches(x, w, plan);
    RunReaches(y, w, plan);
    var at := |plan| - |st.containers| + i;
    var v, u := Run(x, w, plan).0, Run(y, w, plan).0;
    ReachedAt(x, w, v, plan, at);
    ReachedAt(y, w, u, plan, at);
    TreeWithin(x, y, w, v, u, c, hit);
  }

  lemma TreeWithin(x: Outside, y: Outside, w: World, v: World, u: World, c: Container, hit: iset<Key>)
    requires DifferOnlyAt(x, y, hit) && ServiceKey(c) !in hit
    requires ReachedOne(x, w, v, ContainerTask(x.parse, c)) && ReachedOne(y, w, u, ContainerTask(x.parse, c))
    ensures
      var n, m := Branch(x, w, ContainerTask(x.parse, c)), Branch(y, w, ContainerTask(x.parse, c));
      && ContainerShaped(c, n) && ContainerShaped(c, m)
      && SameWithin(c, hit, v, n, u, m)
  {
    hide Do, RouteTask, MappingTask, DifferOnlyAt, Derive, EndpointFromRoute, Foot, DomainStatusOf;
    var t := ContainerTask(x.parse, c);
    var n, m := Branch(x, w, t), Branch(y, w, t);
    SameDo(x, y, hit, t, w);
    BranchShaped(x, w, c);
    SameParser(x, y, hit);
    BranchShaped(y, w, c);
    KeysWithin(c);
    forall j | 0 <= j < |t.next| && t.next[j].key !in hit
      ensures At(v, t.next[j].key) == At(u, t.next[j].key)
      ensures n.outcome.Ok? ==> n.kids[j].outcome == m.kids[j].outcome
    {
      SameDo(x, y, hit, t.next[j], w);
      if n.outcome.Ok? {
        ReachedAt(x, w, v, t.next, j);
        ReachedAt(y, w, u, t.next, j);
        ParallelAt(x, w, t.next, j);
        ParallelAt(y, w, t.next, j);
      } else {
        FootMember(t.next, j);
        LeadInFoot(t.next[j]);
      }
    }
    forall j | 0 <= j < |c.customDomains| && MappingKey(c, c.customDomains[j].hostname) !in hit
      ensures At(v, MappingKey(c, c.customDomains[j].hostname)) == At(u, MappingKey(c, c.customDomains[j].hostname))
      ensures n.outcome.Ok? ==> DomainOutcome(c, n, j) == DomainOutcome(c, m, j)
    {
      assert t.next[1 + j] == MappingTask(c, c.customDomains[j]);
    }
    assert t.next[0] == RouteTask(c);
  }

  lemma KeysWithin(c: Container)
    ensures RouteTask(c).key == RouteKey(c)
    ensures forall d :: MappingTask(c, d).key == MappingKey(c, d.hostname)
  {
  }

  lemma LeadInFoot(t: Task)
    ensures t.key in Foot([t])
  {
  }

  lemma SameDo(x: Outside, y: Outside, hit: iset<Key>, t: Task, w: World)
    requires DifferOnlyAt(x, y, hit) && t.key !in hit
    ensures Do(x, t.key, t.act, At(w, t.key)) == Do(y, t.key, t.act, At(w, t.key))
  {
    hide Do;
    DoLocal(x, y, t.key, t.act, At(w, t.key));
  }

  // ----- Order -----

  lemma BranchShaped(x: Outside, w: World, c: Container)
    ensures ContainerShaped(c, Branch(x, w, ContainerTask(x.parse, c)))
  {
    hide Do;
  }

  function NamespaceAlone(x: Outside, w: World, ns: Namespace): Payload {
    NamespaceReport(ns, Branch(x, w, NamespaceTask(x.parse, ns)))
  }

  ghost function ContainerAlone(x: Outside, w: World, c: Container): seq<Payload> {
    BranchShaped(x, w, c);
    ContainerReport(c, Branch(x, w, ContainerTask(x.parse, c)))
  }

  ghost function AloneNamespace(x: Outside, w: World): Namespace -> Payload {
    ns => NamespaceAlone(x, w, ns)
  }

  ghost function AloneContainer(x: Outside, w: World): Container -> seq<Payload> {
    c => ContainerAlone(x, w, c)
  }

  lemma {:induction false} NamespacesAlone(x: Outside, w: World, nss: seq<Namespace>)
    ensures NamespaceReports(nss, Parallel(x, w, NamespaceTasks(x.parse, nss))) == Map(AloneNamespace(x, w), nss)
  {
    hide NamespaceAlone, NamespaceReports, Parallel, Branch;
    var ts := NamespaceTasks(x.parse, nss);
    var a, b := NamespaceReports(nss, Parallel(x, w, ts)), Map(AloneNamespace(x, w), nss);
    forall i | 0 <= i < |nss|
      ensures a[i] == b[i]
    {
      ParallelAt(x, w, ts, i);
      AloneMeans(x, w, nss[i]);
    }
  }

  lemma AloneMeans(x: Outside, w: World, ns: Namespace)
    ensures NamespaceAlone(x, w, ns) == NamespaceReport(ns, Branch(x, w, NamespaceTask(x.parse, ns)))
  {
  }

  lemma {:induction false} ContainersAlone(x: Outside, w: World, cs: seq<Container>)
    ensures AllShaped(cs, Parallel(x, w, ContainerTasks(x.parse, cs)))
    ensures ContainerReports(cs, Parallel(x, w, ContainerTasks(x.parse, cs))) == Flat(AloneContainer(x, w), cs)
    decreases |cs|
  {
    hide Branch, ContainerReport, ContainerReports, Do, ContainerTask, ContainerShaped, Flat, Parallel, AllShaped;
    var f := AloneContainer(x, w);
    if cs == [] {
      NobodyAlone(x, w, f);
    } else {
      var l := |cs| - 1;
      var init, last := cs[..l], cs[l];
      var t := ContainerTask(x.parse, last);
      assert ContainerTasks(x.parse, cs) == ContainerTasks(x.parse, init) + [t];
      ParallelAppend(x, w, ContainerTasks(x.parse, init), [t]);
      ParallelOne(x, w, t);
      BranchShaped(x, w, last);
      ContainersAlone(x, w, init);
      var ns := Parallel(x, w, ContainerTasks(x.parse, init));
      assert cs[..l + 1] == cs == init + [last];
      ShapedGrow(cs, l, ns, Branch(x, w, t));
      ContainerReportsGrow(cs, l, ns, Branch(x, w, t));
      FlatAppend(f, init, [last]);
      FlatOne(f, last);
      ContainerAloneMeans(x, w, last);
    }
  }

  lemma NobodyAlone(x: Outside, w: World, f: Container -> seq<Payload>)
    ensures Parallel(x, w, []) == [] && AllShaped([], []) && ContainerReports([], []) == [] && Flat(f, []) == []
  {
  }

  lemma ContainerAloneMeans(x: Outside, w: World, c: Container)
    ensures ContainerShaped(c, Branch(x, w, ContainerTask(x.parse, c)))
    ensures AloneContainer(x, w)(c) == ContainerReport(c, Branch(x, w, ContainerTask(x.parse, c)))
  {
    hide Branch, ContainerReport, ContainerTask, ContainerShaped;
    BranchShaped(x, w, c);
  }

  /** The same desired state with its namespaces and its containers listed in another order. */
  ghost predicate Reordered(a: DesiredState, b: DesiredState) {
    && multiset(a.namespaces) == multiset(b.namespaces)
    && multiset(a.containers) == multiset(b.containers)
    && a.allowedRegistries == b.allowedRegistries
  }

  lemma PlanReordered(parse: Parser, a: DesiredState, b: DesiredState, g: bool)
    requires Reordered(a, b)
    ensures multiset(PlanOf(parse, a, g)) == multiset(PlanOf(parse, b, g))
  {
    hide NamespaceTask, ContainerTask, NamespaceTasks, ContainerTasks, PolicyTasks;
    var f := ns => NamespaceTask(parse, ns);
    MapPermuted(f, a.namespaces, b.namespaces);
    assert NamespaceTasks(parse, a.namespaces) == Map(f, a.namespaces);
    assert NamespaceTasks(parse, b.namespaces) == Map(f, b.namespaces);
    var h := c => ContainerTask(parse, c);
    MapPermuted(h, a.containers, b.containers);
    assert ContainerTasks(parse, a.containers) == Map(h, a.containers);
    assert ContainerTasks(parse, b.containers) == Map(h, b.containers);
  }

  /**
   Listing the namespaces and the containers in another order changes nothing: the final store is
   the same and the same requests are sent, if perhaps in another order.
   */
  lemma OrderIndependence(x: Outside, w: World, a: DesiredState, b: DesiredState, gatekeeper: Option<bool>)
    requires DistinctKeys(a) && Reordered(a, b)
    ensures Sync(x, w, Some(b), gatekeeper).world == Sync(x, w, Some(a), gatekeeper).world
    ensures multiset(Sync(x, w, Some(b), gatekeeper).sent) == multiset(Sync(x, w, Some(a), gatekeeper).sent)
  {
    hide Run, Parallel, Unique, Foot, Sync, SyncReports, PlanOf, DistinctKeys, Cells, Reordered, Derived;
    var g := gatekeeper == Some(true);
    var pa, pb := PlanOf(x.parse, a, g), PlanOf(x.parse, b, g);
    PlanFoot(x.parse, a, g);
    PlanReordered(x.parse, a, b, g);
    OrderIrrelevant(x, w, pa, pb);
    RunIsParallel(x, w, pa);
    RunIsParallel(x, w, pb);
    SyncIsRun(x, w, a, gatekeeper);
    SyncIsRun(x, w, b, gatekeeper);
    ReportsReordered(x, w, a, b, g);
    var ra, rb := SyncReports(a, Run(x, w, pa).1), SyncReports(b, Run(x, w, pb).1);
    assert multiset([PullDesiredState] + ra) == multiset([PullDesiredState]) + multiset(ra);
    assert multiset([PullDesiredState] + rb) == multiset([PullDesiredState]) + multiset(rb);
  }

  lemma ReportsReordered(x: Outside, w: World, a: DesiredState, b: DesiredState, g: bool)
    requires DistinctKeys(a) && Reordered(a, b)
    ensures
      var ma, mb := Run(x, w, PlanOf(x.parse, a, g)).1, Run(x, w, PlanOf(x.parse, b, g)).1;
      && PlanShaped(a, ma) && PlanShaped(b, mb)
      && multiset(SyncReports(b, mb)) == multiset(SyncReports(a, ma))
  {
    hide Run, PlanOf, DistinctKeys, NamespaceReports, ContainerReports, SyncedCount, ReadyCount, Parallel, Reordered,
         AllShaped, Flat, Map;
    PlanFoot(x.parse, a, g);
    PlanReordered(x.parse, a, b, g);
    OrderIrrelevant(x, w, PlanOf(x.parse, a, g), PlanOf(x.parse, b, g));
    NodesAreBranches(x, w, a, g);
    NodesAreBranches(x, w, b, g);
    var ma, mb := Run(x, w, PlanOf(x.parse, a, g)).1, Run(x, w, PlanOf(x.parse, b, g)).1;
    var na, nb := NamespaceReports(a.namespaces, NamespaceNodes(a, ma)),
        NamespaceReports(b.namespaces, NamespaceNodes(b, mb));
    var ca, cb := ContainerReports(a.containers, ContainerNodes(a, ma)),
        ContainerReports(b.containers, ContainerNodes(b, mb));
    EntriesReordered(x, w, a, b);
    NamespaceAccounting(a.namespaces, NamespaceNodes(a, ma));
    NamespaceAccounting(b.namespaces, NamespaceNodes(b, mb));
    ContainerAccounting(a.containers, ContainerNodes(a, ma));
    ContainerAccounting(b.containers, ContainerNodes(b, mb));
    FlatPermuted(SyncedIdOf, na, nb);
    FlatPermuted(RunningIdOf, ca, cb);
    SameLength(Flat(SyncedIdOf, na), Flat(SyncedIdOf, nb));
    SameLength(Flat(RunningIdOf, ca), Flat(RunningIdOf, cb));
  }

  lemma SameLength<T>(s: seq<T>, t: seq<T>)
    requires multiset(s) == multiset(t)
    ensures |s| == |t|
  {
    assert |multiset(s)| == |s| && |multiset(t)| == |t|;
  }

  /** Entry by entry the reports are the same, so permuting the entries permutes them. */
  lemma EntriesReordered(x: Outside, w: World, a: DesiredState, b: DesiredState)
    requires Reordered(a, b)
    ensures
      var ca, cb := Parallel(x, w, ContainerTasks(x.parse, a.containers)),
          Parallel(x, w, ContainerTasks(x.parse, b.containers));
      var na, nb := Parallel(x, w, NamespaceTasks(x.parse, a.namespaces)),
          Parallel(x, w, NamespaceTasks(x.parse, b.namespaces));
      && multiset(NamespaceReports(a.namespaces, na)) == multiset(NamespaceReports(b.namespaces, nb))
      && AllShaped(a.containers, ca) && AllShaped(b.containers, cb)
      && multiset(ContainerReports(a.containers, ca)) == multiset(ContainerReports(b.containers, cb))
  {
    hide Parallel, NamespaceReports, ContainerReports, Map, Flat, AllShaped;
    NamespacesAlone(x, w, a.namespaces);
    NamespacesAlone(x, w, b.namespaces);
    MapPermuted(AloneNamespace(x, w), a.namespaces, b.namespaces);
    ContainersAlone(x, w, a.containers);
    ContainersAlone(x, w, b.containers);
    FlatPermuted(AloneContainer(x, w), a.containers, b.containers);
  }

  // ----- Accounting -----

  function NamespaceId(ns: Namespace): string { ns.id }
  function ContainerId(c: Container): string { c.id }
  function NamespaceIdOf(p: Payload): seq<string> { if p.NamespaceStatus? then [p.id] else [] }
  function AgentIdOf(p: Payload): seq<string> { if p.AgentStatus? then [p.id] else [] }
  function DomainIdOf(p: Payload): seq<string> { if p.DomainReport? then [p.id] else [] }
  function SyncedIdOf(p: Payload): seq<string> { if p.NamespaceStatus? && p.syncStatus == "synced" then [p.id] else [] }
  function RunningIdOf(p: Payload): seq<string> { if p.AgentStatus? && p.status == "running" then [p.id] else [] }

  /** The domain IDs a container can report: the nonempty ones, in order. */
  function IdOf(d: CustomDomain): seq<string> { if d.id == "" then [] else [d.id] }

  /** The IDs due a callback: those of containers whose Service was written. */
  function IdsDue(cs: seq<Container>, ns: seq<Node>): seq<string>
    requires |cs| == |ns|
  {
    if cs == [] then []
    else IdsDue(cs[..|cs| - 1], ns[..|ns| - 1]) +
         (if ns[|ns| - 1].outcome.Ok? then Flat(IdOf, cs[|cs| - 1].customDomains) else [])
  }

  lemma {:induction false} NamespaceAccounting(nss: seq<Namespace>, ns: seq<Node>)
    requires |nss| == |ns|
    ensures
      var r := NamespaceReports(nss, ns);
      && Flat(NamespaceIdOf, r) == Map(NamespaceId, nss)
      && |Flat(SyncedIdOf, r)| == SyncedCount(nss, ns)
      && Flat(AgentIdOf, r) == [] && Flat(DomainIdOf, r) == [] && Flat(RunningIdOf, r) == []
    decreases |nss|
  {
    hide NamespaceReport, Flat, Map;
    if nss == [] {
      NothingCounted();
      assert Map(NamespaceId, nss) == [];
    } else {
      var init, last, n := nss[..|nss| - 1], nss[|nss| - 1], ns[|ns| - 1];
      NamespaceAccounting(init, ns[..|ns| - 1]);
      var a, b := NamespaceReports(init, ns[..|ns| - 1]), [NamespaceReport(last, n)];
      FlatAppend(NamespaceIdOf, a, b);
      FlatAppend(SyncedIdOf, a, b);
      FlatAppend(AgentIdOf, a, b);
      FlatAppend(DomainIdOf, a, b);
      FlatAppend(RunningIdOf, a, b);
      NamespaceAccountingOne(last, n);
      MapExtend(NamespaceId, nss, |nss| - 1);
      assert nss[..|nss|] == nss;
    }
  }

  lemma NothingCounted()
    ensures Flat(NamespaceIdOf, []) == [] && Flat(SyncedIdOf, []) == [] && Flat(AgentIdOf, []) == []
    ensures Flat(DomainIdOf, []) == [] && Flat(RunningIdOf, []) == []
  {
  }

  lemma NamespaceAccountingOne(ns: Namespace, n: Node)
    ensures
      var r := [NamespaceReport(ns, n)];
      && Flat(NamespaceIdOf, r) == [ns.id]
      && |Flat(SyncedIdOf, r)| == (if NamespaceError(ns, n).None? then 1 else 0)
      && Flat(AgentIdOf, r) == [] && Flat(DomainIdOf, r) == [] && Flat(RunningIdOf, r) == []
  {
    hide NamespaceError, Flat;
    var p := NamespaceReport(ns, n);
    FlatOne(NamespaceIdOf, p);
    FlatOne(SyncedIdOf, p);
    FlatOne(AgentIdOf, p);
    FlatOne(DomainIdOf, p);
    FlatOne(RunningIdOf, p);
  }

  lemma {:induction false} DomainAccounting(ds: seq<CustomDomain>, ns: seq<Node>)
    requires |ds| == |ns|
    ensures
      var r := DomainReports(DomainStatuses(ds, ns));
      && Flat(DomainIdOf, r) == Flat(IdOf, ds)
      && Flat(NamespaceIdOf, r) == [] && Flat(SyncedIdOf, r) == []
      && Flat(AgentIdOf, r) == [] && Flat(RunningIdOf, r) == []
    decreases |ds|
  {
    hide Flat, DomainStatusOf;
    if ds == [] {
      NothingCounted();
      FlatNone(IdOf);
    } else {
      var init, last, o := ds[..|ds| - 1], ds[|ds| - 1], ns[|ns| - 1].outcome;
      var ss := DomainStatuses(ds, ns);
      assert ss[..|ss| - 1] == DomainStatuses(init, ns[..|ns| - 1]);
      DomainAccounting(init, ns[..|ns| - 1]);
      var s := DomainStatusOf(last, o);
      var a, b := DomainReports(ss[..|ss| - 1]), if s.id == "" then [] else [DomainReport(s.id, s.status, s.error)];
      DomainAccountingOne(last, o);
      FlatAppend(IdOf, init, [last]);
      FlatOne(IdOf, last);
      assert ds == init + [last];
      FlatAppend(DomainIdOf, a, b);
      FlatAppend(NamespaceIdOf, a, b);
      FlatAppend(SyncedIdOf, a, b);
      FlatAppend(AgentIdOf, a, b);
      FlatAppend(RunningIdOf, a, b);
    }
  }

  lemma DomainAccountingOne(d: CustomDomain, o: Outcome)
    ensures
      var s := DomainStatusOf(d, o);
      var r := if s.id == "" then [] else [DomainReport(s.id, s.status, s.error)];
      && Flat(DomainIdOf, r) == IdOf(d)
      && Flat(NamespaceIdOf, r) == [] && Flat(SyncedIdOf, r) == []
      && Flat(AgentIdOf, r) == [] && Flat(RunningIdOf, r) == []
  {
    var s := DomainStatusOf(d, o);
    if s.id != "" {
      assert [DomainReport(s.id, s.status, s.error)][1..] == [];
    }
  }

  lemma ContainerAccountingOne(c: Container, n: Node)
    requires ContainerShaped(c, n)
    ensures
      var r := ContainerReport(c, n);
      && Flat(AgentIdOf, r) == [c.id]
      && Flat(DomainIdOf, r) == (if n.outcome.Ok? then Flat(IdOf, c.customDomains) else [])
      && |Flat(RunningIdOf, r)| == (if AgentReport(c, n).status == "running" then 1 else 0)
      && Flat(NamespaceIdOf, r) == [] && Flat(SyncedIdOf, r) == []
  {
    hide Flat, DomainReports, DomainStatuses, AgentReport;
    NothingCounted();
    var a, b := if n.outcome.Err? then [] else DomainReports(DomainStatuses(c.customDomains, n.kids[1..])),
        AgentReport(c, n);
    if n.outcome.Ok? {
      DomainAccounting(c.customDomains, n.kids[1..]);
    }
    FlatAppend(AgentIdOf, a, [b]);
    FlatAppend(DomainIdOf, a, [b]);
    FlatAppend(RunningIdOf, a, [b]);
    FlatAppend(NamespaceIdOf, a, [b]);
    FlatAppend(SyncedIdOf, a, [b]);
    AgentAccountingOne(c, n);
  }

  lemma AgentAccountingOne(c: Container, n: Node)
    requires ContainerShaped(c, n)
    ensures
      var r := [AgentReport(c, n)];
      && Flat(AgentIdOf, r) == [c.id]
      && |Flat(RunningIdOf, r)| == (if AgentReport(c, n).status == "running" then 1 else 0)
      && Flat(DomainIdOf, r) == [] && Flat(NamespaceIdOf, r) == [] && Flat(SyncedIdOf, r) == []
  {
    hide Derive, Flat, EndpointFromRoute;
    var p := AgentReport(c, n);
    FlatOne(AgentIdOf, p);
    FlatOne(RunningIdOf, p);
    FlatOne(DomainIdOf, p);
    FlatOne(NamespaceIdOf, p);
    FlatOne(SyncedIdOf, p);
  }

  lemma {:induction false} ContainerAccounting(cs: seq<Container>, ns: seq<Node>)
    requires AllShaped(cs, ns)
    ensures
      var r := ContainerReports(cs, ns);
      && Flat(AgentIdOf, r) == Map(ContainerId, cs)
      && Flat(DomainIdOf, r) == IdsDue(cs, ns)
      && |Flat(RunningIdOf, r)| == ReadyCount(cs, ns)
      && Flat(NamespaceIdOf, r) == [] && Flat(SyncedIdOf, r) == []
    decreases |cs|
  {
    hide ContainerReport, AgentReport, Map, Flat;
    if cs == [] {
      NothingCounted();
      assert Map(ContainerId, cs) == [];
    } else {
      var init, last, n := cs[..|cs| - 1], cs[|cs| - 1], ns[|ns| - 1];
      ContainerAccounting(init, ns[..|ns| - 1]);
      ContainerAccountingOne(last, n);
      var a, b := ContainerReports(init, ns[..|ns| - 1]), ContainerReport(last, n);
      FlatAppend(AgentIdOf, a, b);
      FlatAppend(DomainIdOf, a, b);
      FlatAppend(RunningIdOf, a, b);
      FlatAppend(NamespaceIdOf, a, b);
      FlatAppend(SyncedIdOf, a, b);
      MapExtend(ContainerId, cs, |cs| - 1);
      assert cs[..|cs|] == cs;
    }
  }

  /**
   Report accounting, whatever fails: one namespace report per namespace in order, one agent
   report per container in order, one callback per nonempty domain ID of each container whose
   Service was written, and at the end one cluster report that counts the "synced" and "running"
   reports before it. Without a desired state the store is untouched and only "unreachable" is sent.
   */
  lemma Accounting(x: Outside, w: World, st: DesiredState, gatekeeper: Option<bool>)
    ensures
      var s := Sync(x, w, Some(st), gatekeeper);
      var ns := Run(x, w, PlanOf(x.parse, st, gatekeeper == Some(true))).1;
      var body := s.sent[1..|s.sent| - 1];
      && PlanShaped(st, ns)
      && |s.sent| >= 2 && s.sent[0] == PullDesiredState
      && Flat(NamespaceIdOf, body) == Map(NamespaceId, st.namespaces)
      && Flat(AgentIdOf, body) == Map(ContainerId, st.containers)
      && Flat(DomainIdOf, body) == IdsDue(st.containers, ContainerNodes(st, ns))
      && |body| == |st.namespaces| + |st.containers| + |IdsDue(st.containers, ContainerNodes(st, ns))|
      && s.sent[|s.sent| - 1] == ClusterStatus("reachable", |Flat(SyncedIdOf, body)|, |Flat(RunningIdOf, body)|)
    ensures Sync(x, w, None, gatekeeper) == SyncResult(w, [PullDesiredState, ClusterStatus("unreachable", 0, 0)])
  {
    hide Run, PlanOf, NamespaceReports, ContainerReports, SyncedCount, ReadyCount, IdsDue, AllShaped, Map, Flat,
         NamespaceTasks, ContainerTasks, PolicyTasks;
    SyncIsRun(x, w, st, gatekeeper);
    var ns := Run(x, w, PlanOf(x.parse, st, gatekeeper == Some(true))).1;
    ReportsAccounting(st, ns);
    var s := Sync(x, w, Some(st), gatekeeper);
    var a := NamespaceReports(st.namespaces, NamespaceNodes(st, ns)) +
        ContainerReports(st.containers, ContainerNodes(st, ns));
    assert s.sent[1..|s.sent| - 1] == a;
  }

  lemma ReportsAccounting(st: DesiredState, ns: seq<Node>)
    requires PlanShaped(st, ns)
    ensures
      var nn, cn := NamespaceNodes(st, ns), ContainerNodes(st, ns);
      var body := NamespaceReports(st.namespaces, nn) + ContainerReports(st.containers, cn);
      && Flat(NamespaceIdOf, body) == Map(NamespaceId, st.namespaces)
      && Flat(AgentIdOf, body) == Map(ContainerId, st.containers)
      && Flat(DomainIdOf, body) == IdsDue(st.containers, cn)
      && |body| == |st.namespaces| + |st.containers| + |IdsDue(st.containers, cn)|
      && |Flat(SyncedIdOf, body)| == SyncedCount(st.namespaces, nn)
      && |Flat(RunningIdOf, body)| == ReadyCount(st.containers, cn)
  {
    hide NamespaceReport, ContainerReports, SyncedCount, ReadyCount, IdsDue, Map, Flat, AllShaped;
    var nn, cn := NamespaceNodes(st, ns), ContainerNodes(st, ns);
    var a, b := NamespaceReports(st.namespaces, nn), ContainerReports(st.containers, cn);
    NamespaceAccounting(st.namespaces, nn);
    ContainerAccounting(st.containers, cn);
    FlatAppend(NamespaceIdOf, a, b);
    FlatAppend(AgentIdOf, a, b);
    FlatAppend(DomainIdOf, a, b);
    FlatAppend(SyncedIdOf, a, b);
    FlatAppend(RunningIdOf, a, b);
    ContainerReportsOnly(st.containers, cn);
  }

  /** The container part holds nothing but agent reports and domain callbacks. */
  lemma {:induction false} ContainerReportsOnly(cs: seq<Container>, ns: seq<Node>)
    requires AllShaped(cs, ns)
    ensures |ContainerReports(cs, ns)| == |cs| + |IdsDue(cs, ns)|
    decreases |cs|
  {
    hide AgentReport, DomainReports, DomainStatuses, Flat;
    if cs != [] {
      var last, n := cs[|cs| - 1], ns[|ns| - 1];
      ContainerReportsOnly(cs[..|cs| - 1], ns[..|ns| - 1]);
      if n.outcome.Ok? {
        DomainReportsOnly(last.customDomains, n.kids[1..]);
      }
    }
  }

  lemma {:induction false} DomainReportsOnly(ds: seq<CustomDomain>, ns: seq<Node>)
    requires |ds| == |ns|
    ensures |DomainReports(DomainStatuses(ds, ns))| == |Flat(IdOf, ds)|
    decreases |ds|
  {
    hide Flat;
    if ds == [] {
      FlatNone(IdOf);
    } else {
      var init, last := ds[..|ds| - 1], ds[|ds| - 1];
      var ss := DomainStatuses(ds, ns);
      assert ss[..|ss| - 1] == DomainStatuses(init, ns[..|ns| - 1]);
      DomainReportsOnly(init, ns[..|ns| - 1]);
      FlatAppend(IdOf, init, [last]);
      FlatOne(IdOf, last);
      assert ds == init + [last];
    }
  }
}
