/** Which keys a desired state's plan can address, and when no two of its tasks share one. */
module Footprints {
  import opened Prelude
  import opened Objects
  import opened Tasks
  import opened Locality
  import opened Hydra
  import opened Naming
  import opened Plan

  /** The keys a listed namespace stands for. */
  function NamespaceFoot(ns: Namespace): set<Key> {
    {NamespaceKey(ns.k8sName), QuotaKey(ns.k8sName)}
  }

  /** The keys a listed container stands for. */
  function ContainerFoot(c: Container): set<Key> {
    {ServiceKey(c), RouteKey(c)} + set d | d in c.customDomains :: MappingKey(c, d.hostname)
  }

  function PolicyFoot(): set<Key> {
    {TemplateKey(RequiredLimits), TemplateKey(BlockPrivileged), TemplateKey(AllowedRepos),
     ConstraintKey(RequiredLimits), ConstraintKey(BlockPrivileged), ConstraintKey(AllowedRepos)}
  }

  /** Namespace names, (namespace, lowercased ID) and (namespace, hostname) are pairwise distinct. */
  ghost predicate DistinctKeys(st: DesiredState) {
    var nss, cs := st.namespaces, st.containers;
    && (forall i, j :: 0 <= i < j < |nss| ==> nss[i].k8sName != nss[j].k8sName)
    && (forall i, j :: 0 <= i < j < |cs| ==>
          cs[i].namespaceK8sName != cs[j].namespaceK8sName || ToLower(cs[i].id) != ToLower(cs[j].id))
    && (forall i :: 0 <= i < |cs| ==> DistinctHosts(cs[i].customDomains))
    && (forall i, j :: 0 <= i < j < |cs| && cs[i].namespaceK8sName == cs[j].namespaceK8sName ==>
          NoSharedHost(cs[i].customDomains, cs[j].customDomains))
  }

  ghost predicate DistinctHosts(ds: seq<CustomDomain>) {
    forall i, j :: 0 <= i < j < |ds| ==> ds[i].hostname != ds[j].hostname
  }

  ghost predicate NoSharedHost(ds: seq<CustomDomain>, es: seq<CustomDomain>) {
    forall d, e :: d in ds && e in es ==> d.hostname != e.hostname
  }

  lemma NothingFoot()
    ensures Foot([]) == {} && Unique([])
  {
  }

  lemma LeafFoot(t: Task)
    requires t.next == []
    ensures Foot([t]) == {t.key} && Unique([t])
  {
    assert Foot([t]) == {t.key} + Foot([]) + Foot([t][1..]);
  }

  lemma NamespaceTaskFoot(parse: Parser, ns: Namespace)
    ensures Foot([NamespaceTask(parse, ns)]) == NamespaceFoot(ns) && Unique([NamespaceTask(parse, ns)])
  {
    LeafFoot(QuotaTask(parse, ns));
    var t := NamespaceTask(parse, ns);
    assert [t][1..] == [] && [t][..1] == [t];
    assert Foot([t]) == {t.key} + Foot(t.next) + Foot([t][1..]);
  }

  lemma {:induction false} MappingTasksFoot(c: Container, ds: seq<CustomDomain>)
    ensures Foot(MappingTasks(c, ds)) == set d | d in ds :: MappingKey(c, d.hostname)
    ensures DistinctHosts(ds) ==> Unique(MappingTasks(c, ds))
  {
    hide Unique, Foot;
    if ds == [] {
      NothingFoot();
    } else {
      var t, ts := MappingTask(c, ds[0]), MappingTasks(c, ds);
      assert ts == [t] + MappingTasks(c, ds[1..]);
      MappingTasksFoot(c, ds[1..]);
      LeafFoot(t);
      FootAppend([t], MappingTasks(c, ds[1..]));
      UniqueAppend([t], MappingTasks(c, ds[1..]));
      assert ds == [ds[0]] + ds[1..];
    }
  }

  lemma ContainerTaskFoot(parse: Parser, c: Container)
    ensures Foot([ContainerTask(parse, c)]) == ContainerFoot(c)
    ensures DistinctHosts(c.customDomains) ==> Unique([ContainerTask(parse, c)])
  {
    hide Unique, Foot, MappingTasks;
    MappingTasksFoot(c, c.customDomains);
    LeafFoot(RouteTask(c));
    FootAppend([RouteTask(c)], MappingTasks(c, c.customDomains));
    UniqueAppend([RouteTask(c)], MappingTasks(c, c.customDomains));
    RootFoot(ContainerTask(parse, c));
  }

  lemma RootFoot(t: Task)
    ensures Foot([t]) == {t.key} + Foot(t.next)
    ensures t.key !in Foot(t.next) && Unique(t.next) ==> Unique([t])
  {
    assert [t][1..] == [] && [t][..1] == [t];
    assert Foot([t]) == {t.key} + Foot(t.next) + Foot([t][1..]);
  }

  lemma PolicyTaskFoot(allowed: seq<string>)
    ensures Foot([PolicyTask(allowed)]) == PolicyFoot() && Unique([PolicyTask(allowed)])
  {
    var c3 := ConstraintTask(AllowedRepos, RepoParameters(allowed), []);
    var c2 := ConstraintTask(BlockPrivileged, Some(map[]), [c3]);
    var c1 := ConstraintTask(RequiredLimits, Some(map[]), [c2]);
    var t3 := TemplateTask(AllowedRepos, [c1]);
    var t2 := TemplateTask(BlockPrivileged, [t3]);
    var t1 := TemplateTask(RequiredLimits, [t2]);
    assert t1 == PolicyTask(allowed);
    hide Unique, Foot, PolicyName, PolicyKind, RepoParameters, PolicyTemplateObj, ConstraintObj;
    PolicyNamesDiffer();
    LeafFoot(c3);
    RootFoot(c2);
    RootFoot(c1);
    RootFoot(t3);
    RootFoot(t2);
    RootFoot(t1);
  }

  lemma PolicyNamesDiffer()
    ensures forall p, q :: PolicyName(p) == PolicyName(q) ==> p == q
  {
    assert PolicyName(RequiredLimits)[6] == 'r' && PolicyName(BlockPrivileged)[6] == 'b' &&
           PolicyName(AllowedRepos)[6] == 'a';
  }

  /** Trees that are unique on their own and pairwise disjoint are unique together. */
  lemma {:induction false} UniqueByPairs(ts: seq<Task>)
    requires forall i :: 0 <= i < |ts| ==> Unique([ts[i]])
    requires forall i, j :: 0 <= i < j < |ts| ==> Foot([ts[i]]) !! Foot([ts[j]])
    ensures Unique(ts)
  {
    if ts != [] {
      UniqueByPairs(ts[1..]);
      FootByTrees(ts[1..]);
      assert ts == [ts[0]] + ts[1..];
      UniqueAppend([ts[0]], ts[1..]);
    }
  }

  lemma {:induction false} FootByTrees(ts: seq<Task>)
    ensures forall k :: k in Foot(ts) <==> exists i :: 0 <= i < |ts| && k in Foot([ts[i]])
  {
    if ts != [] {
      FootByTrees(ts[1..]);
      assert ts == [ts[0]] + ts[1..];
      FootAppend([ts[0]], ts[1..]);
      forall k | exists i :: 0 <= i < |ts| && k in Foot([ts[i]])
        ensures k in Foot(ts)
      {
        var i :| 0 <= i < |ts| && k in Foot([ts[i]]);
        assert i > 0 ==> ts[i] == ts[1..][i - 1];
      }
      forall k | k in Foot(ts[1..])
        ensures exists i :: 0 <= i < |ts| && k in Foot([ts[i]])
      {
        var i :| 0 <= i < |ts[1..]| && k in Foot([ts[1..][i]]);
        assert ts[1..][i] == ts[i + 1];
      }
    }
  }

  /** The keys derived from a desired state; those of the policy only if Gatekeeper is there. */
  ghost predicate Derived(st: DesiredState, gatekeeper: bool, k: Key) {
    || (gatekeeper && k in PolicyFoot())
    || (exists i :: 0 <= i < |st.namespaces| && k in NamespaceFoot(st.namespaces[i]))
    || (exists i :: 0 <= i < |st.containers| && k in ContainerFoot(st.containers[i]))
  }

  lemma NamespacesFoot(parse: Parser, nss: seq<Namespace>)
    ensures forall k :: k in Foot(NamespaceTasks(parse, nss)) <==>
            exists i :: 0 <= i < |nss| && k in NamespaceFoot(nss[i])
    ensures (forall i, j :: 0 <= i < j < |nss| ==> nss[i].k8sName != nss[j].k8sName) ==>
            Unique(NamespaceTasks(parse, nss))
  {
    hide Unique, Foot, NamespaceTask;
    var ts := NamespaceTasks(parse, nss);
    forall i | 0 <= i < |nss|
      ensures Foot([ts[i]]) == NamespaceFoot(nss[i]) && Unique([ts[i]])
    {
      NamespaceTaskFoot(parse, nss[i]);
    }
    FootByTrees(ts);
    if forall i, j :: 0 <= i < j < |nss| ==> nss[i].k8sName != nss[j].k8sName {
      UniqueByPairs(ts);
    }
  }

  lemma ContainersFoot(parse: Parser, st: DesiredState)
    ensures forall k :: k in Foot(ContainerTasks(parse, st.containers)) <==>
                        exists i :: 0 <= i < |st.containers| && k in ContainerFoot(st.containers[i])
    ensures DistinctKeys(st) ==> Unique(ContainerTasks(parse, st.containers))
  {
    hide Unique, Foot, ContainerFoot, ContainerTask;
    var cs := st.containers;
    var ts := ContainerTasks(parse, cs);
    forall i | 0 <= i < |cs|
      ensures Foot([ts[i]]) == ContainerFoot(cs[i])
      ensures DistinctHosts(cs[i].customDomains) ==> Unique([ts[i]])
    {
      ContainerTaskFoot(parse, cs[i]);
    }
    FootByTrees(ts);
    if DistinctKeys(st) {
      forall i, j | 0 <= i < j < |cs|
        ensures ContainerFoot(cs[i]) !! ContainerFoot(cs[j])
      {
        ContainersApart(cs[i], cs[j]);
      }
      UniqueByPairs(ts);
    }
  }

  lemma ContainersApart(c: Container, d: Container)
    requires c.namespaceK8sName != d.namespaceK8sName || ToLower(c.id) != ToLower(d.id)
    requires c.namespaceK8sName == d.namespaceK8sName ==> NoSharedHost(c.customDomains, d.customDomains)
    ensures ContainerFoot(c) !! ContainerFoot(d)
  {
    assert ServiceKey(c).name[5..] == ToLower(c.id) && ServiceKey(d).name[5..] == ToLower(d.id);
  }

  lemma PolicyTasksFoot(gatekeeper: bool, allowed: seq<string>)
    ensures Foot(PolicyTasks(gatekeeper, allowed)) == (if gatekeeper then PolicyFoot() else {})
    ensures Unique(PolicyTasks(gatekeeper, allowed))
  {
    if gatekeeper {
      PolicyTaskFoot(allowed);
    }
  }

  /** The plan addresses exactly the derived keys, none of them twice if the desired state's keys are distinct. */
  lemma PlanFoot(parse: Parser, st: DesiredState, gatekeeper: bool)
    ensures forall k :: k in Foot(PlanOf(parse, st, gatekeeper)) <==> Derived(st, gatekeeper, k)
    ensures DistinctKeys(st) ==> Unique(PlanOf(parse, st, gatekeeper))
  {
    hide Unique, Foot, NamespaceFoot, ContainerFoot, PolicyFoot, PolicyTasks, NamespaceTasks, ContainerTasks;
    var p, n, c := PolicyTasks(gatekeeper, st.allowedRegistries), NamespaceTasks(parse, st.namespaces),
                   ContainerTasks(parse, st.containers);
    PolicyTasksFoot(gatekeeper, st.allowedRegistries);
    NamespacesFoot(parse, st.namespaces);
    ContainersFoot(parse, st);
    FootAppend(p, n);
    FootAppend(p + n, c);
    UniqueAppend(p, n);
    UniqueAppend(p + n, c);
    PartsApart(st);
  }

  /** Policy, namespaces and containers own different kinds of objects. */
  lemma PartsApart(st: DesiredState)
    ensures forall i :: 0 <= i < |st.namespaces| ==> PolicyFoot() !! NamespaceFoot(st.namespaces[i])
    ensures forall i :: 0 <= i < |st.containers| ==> PolicyFoot() !! ContainerFoot(st.containers[i])
    ensures forall i, j :: 0 <= i < |st.namespaces| && 0 <= j < |st.containers| ==>
              NamespaceFoot(st.namespaces[i]) !! ContainerFoot(st.containers[j])
  {
  }
}
