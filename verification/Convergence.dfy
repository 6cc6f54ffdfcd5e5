/** One undisturbed sync brings the cluster to the desired state from anywhere, and a second one changes nothing. */
module Convergence {
  import opened Prelude
  import opened Objects
  import opened ApiServer
  import opened Tasks
  import opened Locality
  import opened Settling
  import opened Hydra
  import opened Translation
  import opened Plan
  import opened Footprints
  import opened ServiceStatus
  import opened Reports

  /** The object at k is there, with this specification and these labels. */
  ghost predicate Holds(v: World, k: Key, spec: Spec, labels: Labels) {
    At(v, k).obj.Some? && At(v, k).obj.value.spec == spec && At(v, k).obj.value.labels == labels
  }

  ghost predicate Present(v: World, k: Key) {
    At(v, k).obj.Some?
  }

  /**
   A namespace is as asked: a managed one exists, an existing one is left as it was, and the quota
   is exactly the one configured, or none. An imported namespace that is missing gets no quota.
   */
  ghost predicate NamespaceSettled(parse: Parser, ns: Namespace, w: World, v: World) {
    var k, q := NamespaceKey(ns.k8sName), QuotaKey(ns.k8sName);
    && (ns.mode == "managed" && !Present(w, k) ==> Holds(v, k, NamespaceSpec, MANAGED_BY))
    && (ns.mode != "managed" || Present(w, k) ==> At(v, k).obj == At(w, k).obj)
    && (Present(v, k) ==>
          if HasQuota(ns.quotas) then Holds(v, q, QuotaSpec(HardOf(parse, ns.quotas)), map[]) else !Present(v, q))
    && (!Present(v, k) ==> At(v, q) == At(w, q))
  }

  /** A container is as asked: its Service, its Route exactly if flagged, and a mapping per hostname. */
  ghost predicate ContainerSettled(parse: Parser, c: Container, v: World) {
    && Holds(v, ServiceKey(c), ServiceSpec(TemplateOf(parse, c), TrafficOf(c.traffic)), AgentLabels(c.id))
    && (if c.needsOpenShiftRoute
        then Holds(v, RouteKey(c), RouteSpec("Service", ServiceKey(c).name, "edge", "Redirect"), AgentLabels(c.id))
        else !Present(v, RouteKey(c)))
    && (forall i :: 0 <= i < |c.customDomains| ==>
          Holds(v, MappingKey(c, c.customDomains[i].hostname),
                MappingSpec("serving.knative.dev/v1", "Service", ServiceKey(c).name), MANAGED_BY))
  }

  /** Three templates, two unconditional constraints, and the registry constraint exactly if there is a list. */
  ghost predicate PolicySettled(allowed: seq<string>, v: World) {
    && (forall p ::
          Holds(v, TemplateKey(p), TemplateSpec(PolicyKind(p), "admission.k8s.gatekeeper.sh", PolicyRego(p)), map[]))
    && Holds(v, ConstraintKey(RequiredLimits), ConstraintSpec([""], ["Pod"], map[]), map[])
    && Holds(v, ConstraintKey(BlockPrivileged), ConstraintSpec([""], ["Pod"], map[]), map[])
    && (if allowed == [] then !Present(v, ConstraintKey(AllowedRepos))
        else Holds(v, ConstraintKey(AllowedRepos), ConstraintSpec([""], ["Pod"], map["repos" := allowed]), map[]))
  }

  lemma NamespaceConverges(x: Outside, w: World, v: World, ns: Namespace)
    requires CalmBetween(x, w, v) && ReachedOne(x, w, v, NamespaceTask(x.parse, ns))
    ensures NamespaceSettled(x.parse, ns, w, v)
  {
    hide Do, HardOf;
    var t := NamespaceTask(x.parse, ns);
    assert CalmCalls(x, t.key, At(w, t.key), At(v, t.key));
    CalmDo(x, t.key, t.act, At(w, t.key));
    var q := QuotaTask(x.parse, ns);
    LeafFoot(q);
    assert t.next == [q] && t.next[0] == q;
    var d := Do(x, t.key, t.act, At(w, t.key));
    if d.1.Ok? {
      ReachedAt(x, w, v, t.next, 0);
      assert CalmCalls(x, q.key, At(w, q.key), At(v, q.key));
      CalmDo(x, q.key, q.act, At(w, q.key));
    } else {
      assert q.key in Foot(t.next);
    }
  }

  lemma ContainerConverges(x: Outside, w: World, v: World, c: Container)
    requires CalmBetween(x, w, v) && ReachedOne(x, w, v, ContainerTask(x.parse, c))
    ensures ContainerSettled(x.parse, c, v)
  {
    hide Do, TemplateOf, TrafficOf;
    var t := ContainerTask(x.parse, c);
    assert CalmCalls(x, t.key, At(w, t.key), At(v, t.key));
    CalmDo(x, t.key, t.act, At(w, t.key));
    ReachedAt(x, w, v, t.next, 0);
    var r := RouteTask(c);
    assert t.next[0] == r && CalmCalls(x, r.key, At(w, r.key), At(v, r.key));
    CalmDo(x, r.key, r.act, At(w, r.key));
    forall i | 0 <= i < |c.customDomains|
      ensures Holds(v, MappingKey(c, c.customDomains[i].hostname),
                    MappingSpec("serving.knative.dev/v1", "Service", ServiceKey(c).name), MANAGED_BY)
    {
      ReachedAt(x, w, v, t.next, 1 + i);
      var m := MappingTask(c, c.customDomains[i]);
      assert t.next[1 + i] == m && CalmCalls(x, m.key, At(w, m.key), At(v, m.key));
      CalmDo(x, m.key, m.act, At(w, m.key));
    }
  }

  lemma StepConverges(x: Outside, w: World, v: World, t: Task)
    requires CalmBetween(x, w, v) && ReachedOne(x, w, v, t) && !t.act.Require?
    ensures Met(t.act, At(w, t.key).obj, At(v, t.key).obj)
    ensures t.next != [] ==> ReachedOne(x, w, v, t.next[0])
  {
    hide Do;
    assert CalmCalls(x, t.key, At(w, t.key), At(v, t.key));
    CalmDo(x, t.key, t.act, At(w, t.key));
    if t.next != [] {
      ReachedAt(x, w, v, t.next, 0);
    }
  }

  lemma PolicyConverges(x: Outside, w: World, v: World, allowed: seq<string>)
    requires CalmBetween(x, w, v) && ReachedOne(x, w, v, PolicyTask(allowed))
    ensures PolicySettled(allowed, v)
  {
    hide ReachedOne, CalmBetween;
    var t1 := PolicyTask(allowed);
    StepConverges(x, w, v, t1);
    var t2 := t1.next[0];
    StepConverges(x, w, v, t2);
    var t3 := t2.next[0];
    StepConverges(x, w, v, t3);
    var c1 := t3.next[0];
    StepConverges(x, w, v, c1);
    var c2 := c1.next[0];
    StepConverges(x, w, v, c2);
    var c3 := c2.next[0];
    StepConverges(x, w, v, c3);
    forall p
      ensures Holds(v, TemplateKey(p), TemplateSpec(PolicyKind(p), "admission.k8s.gatekeeper.sh", PolicyRego(p)), map[])
    {
      match p
      case RequiredLimits => assert t1.key == TemplateKey(p);
      case BlockPrivileged => assert t2.key == TemplateKey(p);
      case AllowedRepos => assert t3.key == TemplateKey(p);
    }
  }

  /** Everything a desired state asks for, the policy only where Gatekeeper was detected. */
  ghost predicate Settled(parse: Parser, st: DesiredState, gatekeeper: Option<bool>, w: World, v: World) {
    && (gatekeeper == Some(true) ==> PolicySettled(st.allowedRegistries, v))
    && (forall i :: 0 <= i < |st.namespaces| ==> NamespaceSettled(parse, st.namespaces[i], w, v))
    && (forall i :: 0 <= i < |st.containers| ==> ContainerSettled(parse, st.containers[i], v))
  }

  /**
   Self-stabilisation. Whatever history led to the store w, one sync none of whose own calls fails
   or is interfered with makes every listed namespace, quota, Service, Route and mapping exactly what
   the desired state asks for, and every policy object too if Gatekeeper is detected.
   */
  lemma SelfStabilisation(x: Outside, w: World, st: DesiredState, gatekeeper: Option<bool>)
    requires DistinctKeys(st) && CalmBetween(x, w, Sync(x, w, Some(st), gatekeeper).world)
    ensures Settled(x.parse, st, gatekeeper, w, Sync(x, w, Some(st), gatekeeper).world)
  {
    hide Run, Sync, SyncReports, DistinctKeys, Unique, Foot, Derived, PolicySettled, NamespaceSettled, ContainerSettled,
         CalmBetween, Reached, ReachedOne, NamespaceTask, ContainerTask, PolicyTask, PlanOf, PlanShaped;
    var g := gatekeeper == Some(true);
    var plan := PlanOf(x.parse, st, g);
    SyncIsRun(x, w, st, gatekeeper);
    PlanFoot(x.parse, st, g);
    PlanHolds(x.parse, st, g);
    RunReaches(x, w, plan);
    var v := Run(x, w, plan).0;
    var c := |plan| - |st.containers|;
    if g {
      ReachedAt(x, w, v, plan, 0);
      PolicyConverges(x, w, v, st.allowedRegistries);
    }
    forall i | 0 <= i < |st.namespaces|
      ensures NamespaceSettled(x.parse, st.namespaces[i], w, v)
    {
      ReachedAt(x, w, v, plan, c - |st.namespaces| + i);
      NamespaceConverges(x, w, v, st.namespaces[i]);
    }
    forall i | 0 <= i < |st.containers|
      ensures ContainerSettled(x.parse, st.containers[i], v)
    {
      ReachedAt(x, w, v, plan, c + i);
      ContainerConverges(x, w, v, st.containers[i]);
    }
  }

  // ----- The fixed point -----

  lemma NamespaceAlike(ns: Namespace, n: Node, m: Node)
    requires AlikeOne(n, m)
    ensures NamespaceError(ns, n) == NamespaceError(ns, m)
  {
    hide StageWord;
    assert n.kids != [] ==> AlikeOne(n.kids[0], m.kids[0]);
  }

  lemma {:induction false} NamespacesAlike(nss: seq<Namespace>, ns: seq<Node>, ms: seq<Node>)
    requires |nss| == |ns| && Alike(ns, ms)
    ensures NamespaceReports(nss, ns) == NamespaceReports(nss, ms)
    ensures SyncedCount(nss, ns) == SyncedCount(nss, ms)
    decreases |nss|
  {
    hide AlikeOne, NamespaceError;
    if nss != [] {
      var l := |nss| - 1;
      NamespaceAlike(nss[l], ns[l], ms[l]);
      NamespacesAlike(nss[..l], ns[..l], ms[..l]);
    }
  }

  lemma {:induction false} DomainsAlike(ds: seq<CustomDomain>, ns: seq<Node>, ms: seq<Node>)
    requires |ds| == |ns| && Alike(ns, ms)
    ensures DomainStatuses(ds, ns) == DomainStatuses(ds, ms)
    decreases |ds|
  {
    if ds != [] {
      var l := |ds| - 1;
      assert AlikeOne(ns[l], ms[l]);
      DomainsAlike(ds[..l], ns[..l], ms[..l]);
    }
  }

  lemma ContainerAlike(c: Container, n: Node, m: Node)
    requires ContainerShaped(c, n) && AlikeOne(n, m)
    ensures ContainerShaped(c, m) && ContainerReport(c, n) == ContainerReport(c, m) &&
            AgentReport(c, n) == AgentReport(c, m)
  {
    hide Derive, EndpointFromRoute, DomainReports, DomainStatuses;
    if n.outcome.Ok? {
      assert AlikeOne(n.kids[0], m.kids[0]);
      DomainsAlike(c.customDomains, n.kids[1..], m.kids[1..]);
    }
  }

  lemma {:induction false} ContainersAlike(cs: seq<Container>, ns: seq<Node>, ms: seq<Node>)
    requires AllShaped(cs, ns) && AllShaped(cs, ms) && Alike(ns, ms)
    ensures ContainerReports(cs, ns) == ContainerReports(cs, ms)
    ensures ReadyCount(cs, ns) == ReadyCount(cs, ms)
    decreases |cs|
  {
    hide ContainerReport, AgentReport, AlikeOne;
    if cs != [] {
      var l := |cs| - 1;
      ContainerAlike(cs[l], ns[l], ms[l]);
      ContainersAlike(cs[..l], ns[..l], ms[..l]);
    }
  }

  lemma ReportsAlike(st: DesiredState, ns: seq<Node>, ms: seq<Node>)
    requires PlanShaped(st, ns) && PlanShaped(st, ms) && Alike(ns, ms)
    ensures SyncReports(st, ns) == SyncReports(st, ms)
  {
    hide AlikeOne, NamespaceReports, ContainerReports, SyncedCount, ReadyCount;
    NamespacesAlike(st.namespaces, NamespaceNodes(st, ns), NamespaceNodes(st, ms));
    ContainersAlike(st.containers, ContainerNodes(st, ns), ContainerNodes(st, ms));
  }

  // ----- Stamps -----

  /** The annotations that admission adds if the next task on k creates its object. */
  function StampAt(x: Outside, w: World, k: Key): Labels {
    x.fate(k, At(w, k).calls + 1).stamp
  }

  /** The policy objects that are to exist. */
  function PolicyWanted(allowed: seq<string>): set<Key> {
    PolicyFoot() - (if allowed == [] then {ConstraintKey(AllowedRepos)} else {})
  }

  ghost predicate QuotaUnstamped(x: Outside, w: World, ns: Namespace) {
    HasQuota(ns.quotas) && (ns.mode == "managed" || Present(w, NamespaceKey(ns.k8sName))) &&
    !Present(w, QuotaKey(ns.k8sName)) ==>
      StampAt(x, w, QuotaKey(ns.k8sName)) == map[]
  }

  ghost predicate PolicyUnstamped(x: Outside, w: World, allowed: seq<string>) {
    forall k :: k in PolicyWanted(allowed) && !Present(w, k) ==> StampAt(x, w, k) == map[]
  }

  /**
   Admission stamps none of the objects that are about to be created without ever having their
   annotations carried over: missing quotas of namespaces that are managed or present, and missing
   policy objects where Gatekeeper is detected.
   */
  ghost predicate NothingStamped(x: Outside, w: World, st: DesiredState, gatekeeper: bool) {
    && (gatekeeper ==> PolicyUnstamped(x, w, st.allowedRegistries))
    && (forall i :: 0 <= i < |st.namespaces| ==> QuotaUnstamped(x, w, st.namespaces[i]))
  }

  lemma {:induction false} UnstampedEach(x: Outside, w: World, ts: seq<Task>)
    ensures Unstamped(x, w, ts) <==> forall i :: 0 <= i < |ts| ==> UnstampedOne(x, w, ts[i])
    decreases ts
  {
    hide UnstampedOne;
    if ts != [] {
      UnstampedEach(x, w, ts[1..]);
      assert forall i :: 0 < i < |ts| ==> ts[i] == ts[1..][i - 1];
      assert forall i :: 0 <= i < |ts[1..]| ==> ts[1..][i] == ts[i + 1];
    }
  }

  lemma {:induction false} UnstampedAppend(x: Outside, w: World, ts: seq<Task>, us: seq<Task>)
    ensures Unstamped(x, w, ts + us) <==> Unstamped(x, w, ts) && Unstamped(x, w, us)
    decreases ts
  {
    hide UnstampedOne;
    if ts == [] {
      assert ts + us == us;
    } else {
      assert (ts + us)[1..] == ts[1..] + us;
      UnstampedAppend(x, w, ts[1..], us);
    }
  }

  lemma LeafUnstamped(x: Outside, w: World, t: Task)
    requires t.next == []
    ensures UnstampedOne(x, w, t) <==> KeepsAnnotations(x, t.key, t.act, At(w, t.key))
  {
    hide Do, KeepsAnnotations;
  }

  /** For an object built without annotations, keeping them is not being stamped. */
  lemma KeepsNone(x: Outside, w: World, t: Task)
    requires t.act.Upsert? ==> t.act.desired.annotations == map[]
    ensures KeepsAnnotations(x, t.key, t.act, At(w, t.key)) <==>
            (t.act.Upsert? && !t.act.carry && !Present(w, t.key) ==> StampAt(x, w, t.key) == map[])
  {
    assert map[] + StampAt(x, w, t.key) == StampAt(x, w, t.key);
  }

  lemma NamespaceUnstamped(x: Outside, w: World, v: World, ns: Namespace)
    requires CalmBetween(x, w, v) && ReachedOne(x, w, v, NamespaceTask(x.parse, ns))
    ensures UnstampedOne(x, w, NamespaceTask(x.parse, ns)) <==> QuotaUnstamped(x, w, ns)
  {
    hide Do, HardOf;
    var t, q := NamespaceTask(x.parse, ns), QuotaTask(x.parse, ns);
    assert CalmCalls(x, t.key, At(w, t.key), At(v, t.key));
    CalmDo(x, t.key, t.act, At(w, t.key));
    assert t.next[0] == q;
    UnstampedEach(x, w, t.next);
    LeafUnstamped(x, w, q);
    KeepsNone(x, w, q);
  }

  lemma ContainerUnstamped(x: Outside, w: World, c: Container)
    ensures UnstampedOne(x, w, ContainerTask(x.parse, c))
  {
    hide Do;
    var t := ContainerTask(x.parse, c);
    forall i | 0 <= i < |t.next|
      ensures UnstampedOne(x, w, t.next[i])
    {
      if i == 0 {
        LeafUnstamped(x, w, RouteTask(c));
      } else {
        LeafUnstamped(x, w, MappingTask(c, c.customDomains[i - 1]));
      }
    }
    UnstampedEach(x, w, t.next);
  }

  lemma StepUnstamped(x: Outside, w: World, v: World, t: Task)
    requires CalmBetween(x, w, v) && ReachedOne(x, w, v, t) && !t.act.Require? && |t.next| == 1
    ensures ReachedOne(x, w, v, t.next[0])
    ensures UnstampedOne(x, w, t) <==>
            KeepsAnnotations(x, t.key, t.act, At(w, t.key)) && UnstampedOne(x, w, t.next[0])
  {
    hide Do, KeepsAnnotations;
    assert CalmCalls(x, t.key, At(w, t.key), At(v, t.key));
    CalmDo(x, t.key, t.act, At(w, t.key));
    ReachedAt(x, w, v, t.next, 0);
    UnstampedEach(x, w, t.next);
  }

  lemma PolicyStamps(x: Outside, w: World, v: World, allowed: seq<string>)
    requires CalmBetween(x, w, v) && ReachedOne(x, w, v, PolicyTask(allowed))
    ensures UnstampedOne(x, w, PolicyTask(allowed)) <==> PolicyUnstamped(x, w, allowed)
  {
    hide ReachedOne, CalmBetween, UnstampedOne, KeepsAnnotations, StampAt, Present, PolicyName, PolicyKind;
    PolicyNamesDiffer();
    var t1 := PolicyTask(allowed);
    StepUnstamped(x, w, v, t1);
    var t2 := t1.next[0];
    StepUnstamped(x, w, v, t2);
    var t3 := t2.next[0];
    StepUnstamped(x, w, v, t3);
    var c1 := t3.next[0];
    StepUnstamped(x, w, v, c1);
    var c2 := c1.next[0];
    StepUnstamped(x, w, v, c2);
    var c3 := c2.next[0];
    LeafUnstamped(x, w, c3);
    KeepsNone(x, w, t1);
    KeepsNone(x, w, t2);
    KeepsNone(x, w, t3);
    KeepsNone(x, w, c1);
    KeepsNone(x, w, c2);
    KeepsNone(x, w, c3);
  }

  /** What the stamps do to a plan can be told before it runs. */
  lemma StampsKnown(x: Outside, w: World, v: World, st: DesiredState, g: bool)
    requires CalmBetween(x, w, v) && Reached(x, w, v, PlanOf(x.parse, st, g))
    ensures Unstamped(x, w, PlanOf(x.parse, st, g)) <==> NothingStamped(x, w, st, g)
  {
    hide Reached, ReachedOne, CalmBetween, Unstamped, UnstampedOne, NamespaceTask, ContainerTask, PolicyTask,
         PolicyUnstamped, QuotaUnstamped;
    var plan, nss, cs := PlanOf(x.parse, st, g), st.namespaces, st.containers;
    var p, n, c := PolicyTasks(g, st.allowedRegistries), NamespaceTasks(x.parse, nss), ContainerTasks(x.parse, cs);
    UnstampedAppend(x, w, p, n);
    UnstampedAppend(x, w, p + n, c);
    UnstampedEach(x, w, p);
    UnstampedEach(x, w, n);
    UnstampedEach(x, w, c);
    if g {
      assert plan[0] == p[0] == PolicyTask(st.allowedRegistries);
      ReachedAt(x, w, v, plan, 0);
      PolicyStamps(x, w, v, st.allowedRegistries);
    }
    forall i | 0 <= i < |nss|
      ensures UnstampedOne(x, w, n[i]) <==> QuotaUnstamped(x, w, nss[i])
    {
      assert plan[|p| + i] == n[i];
      ReachedAt(x, w, v, plan, |p| + i);
      NamespaceUnstamped(x, w, v, nss[i]);
    }
    forall i | 0 <= i < |cs|
      ensures UnstampedOne(x, w, c[i])
    {
      ContainerUnstamped(x, w, cs[i]);
    }
  }

  /**
   After a sync none of whose calls fails or is interfered with, a second such sync sends the same
   reports. It leaves every object in the cluster as it is exactly if admission stamped no quota,
   template or constraint that the first one had to create: those are written without carrying
   annotations over.
   */
  lemma FixedPoint(x: Outside, w: World, st: DesiredState, gatekeeper: Option<bool>)
    requires DistinctKeys(st)
    requires CalmBetween(x, w, Sync(x, w, Some(st), gatekeeper).world)
    requires var v := Sync(x, w, Some(st), gatekeeper).world; CalmBetween(x, v, Sync(x, v, Some(st), gatekeeper).world)
    ensures
      var s := Sync(x, w, Some(st), gatekeeper);
      var t := Sync(x, s.world, Some(st), gatekeeper);
      && t.sent == s.sent
      && (NothingStamped(x, w, st, gatekeeper == Some(true)) <==>
            forall k :: At(t.world, k).obj == At(s.world, k).obj)
  {
    hide Run, Sync, SyncReports, DistinctKeys, Unique, Foot, Derived, CalmBetween, Reached, Unstamped, PlanOf, Alike,
         Parallel, PlanShaped, Cells, NothingStamped;
    var plan := PlanOf(x.parse, st, gatekeeper == Some(true));
    PlanFoot(x.parse, st, gatekeeper == Some(true));
    SyncIsRun(x, w, st, gatekeeper);
    RunReaches(x, w, plan);
    RunIsParallel(x, w, plan);
    var v := Run(x, w, plan).0;
    SyncIsRun(x, v, st, gatekeeper);
    RunReaches(x, v, plan);
    RunIsParallel(x, v, plan);
    RunWrites(x, v, plan);
    RepeatForest(x, w, v, Run(x, v, plan).0, plan);
    ReportsAlike(st, Run(x, w, plan).1, Run(x, v, plan).1);
    StampsKnown(x, w, v, st, gatekeeper == Some(true));
  }

  /** The condition is not idle: a stamped quota loses its stamp on the second sync. */
  lemma StampedQuotaIsNotFixed() returns (x: Outside, st: DesiredState)
    ensures DistinctKeys(st)
    ensures forall w, v :: CalmBetween(x, w, v)
    ensures var s := Sync(x, map[], Some(st), None);
            var t := Sync(x, s.world, Some(st), None);
            exists k :: At(t.world, k).obj != At(s.world, k).obj
  {
    hide Sync;
    x := Outside((k, n) => Fate(None, map["stamped-by" := "admission"], false, Proceed), true, q => None);
    var ns := Namespace("n1", "team-a", "managed", Quotas("", "", "", "", 10));
    st := DesiredState([ns], [], []);
    assert "stamped-by" in StampAt(x, map[], QuotaKey(ns.k8sName));
    assert st.namespaces[0] == ns && !QuotaUnstamped(x, map[], ns);
    assert !NothingStamped(x, map[], st, false);
    FixedPoint(x, map[], st, None);
  }
}
