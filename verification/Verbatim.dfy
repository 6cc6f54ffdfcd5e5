/**
 The main results once more, in the words of the cluster and of Hydra: every key, name, label, value
 and word of a report is written out, and nothing is said through the functions that compute it.
 */
module Verbatim {
  import opened Prelude
  import opened Objects
  import opened ApiServer
  import opened Tasks
  import opened Settling
  import opened Hydra
  import opened Naming
  import opened Translation
  import opened Plan
  import opened Footprints
  import opened Reports
  import opened SyncTheorems
  import opened Convergence
  import opened Assurance

  // ----- The store -----

  ghost predicate Stored(v: World, k: Key, spec: Spec, labels: Labels) {
    var o := At(v, k).obj;
    o.Some? && o.value.spec == spec && o.value.labels == labels
  }

  ghost predicate AnyQuota(q: Quotas) {
    || q.limitsCPU != "" || q.limitsMemory != "" || q.requestsCPU != "" || q.requestsMemory != ""
    || q.countPods > 0
  }

  /** The quota of a namespace is the one configured, or there is none if none is configured. */
  ghost predicate QuotaThere(parse: Parser, ns: Namespace, v: World) {
    var o := At(v, Key(QuotaKind, ns.k8sName, "hydra-quota")).obj;
    if AnyQuota(ns.quotas) then
      o.Some? && o.value.spec.QuotaSpec? && QuotaAsAsked(parse, o.value.spec.hard, ns.quotas) && o.value.labels == map[]
    else o.None?
  }

  ghost predicate NamespaceThere(parse: Parser, ns: Namespace, w: World, v: World) {
    var k, q := Key(NamespaceKind, "", ns.k8sName), Key(QuotaKind, ns.k8sName, "hydra-quota");
    && (ns.mode == "managed" && At(w, k).obj.None? ==>
          Stored(v, k, NamespaceSpec, map["app.kubernetes.io/managed-by" := "hydra-operator"]))
    && (ns.mode != "managed" || At(w, k).obj.Some? ==> At(v, k).obj == At(w, k).obj)
    && (At(v, k).obj.Some? ==> QuotaThere(parse, ns, v))
    && (At(v, k).obj.None? ==> At(v, q) == At(w, q))
  }

  ghost predicate ServiceThere(parse: Parser, c: Container, name: string, v: World) {
    var o := At(v, Key(ServiceKind, c.namespaceK8sName, "ksvc-" + name)).obj;
    o.Some? && SpecAsAsked(parse, c, o.value.spec) && LabelsAsAsked(c, o.value.labels)
  }

  ghost predicate RouteThere(c: Container, name: string, v: World) {
    var o := At(v, Key(RouteKind, c.namespaceK8sName, "ksvc-" + name)).obj;
    if c.needsOpenShiftRoute then
      && o.Some?
      && o.value.spec == RouteSpec("Service", "ksvc-" + name, "edge", "Redirect")
      && LabelsAsAsked(c, o.value.labels)
    else o.None?
  }

  ghost predicate MappingThere(c: Container, name: string, hostname: string, v: World) {
    Stored(v, Key(MappingKind, c.namespaceK8sName, hostname),
           MappingSpec("serving.knative.dev/v1", "Service", "ksvc-" + name),
           map["app.kubernetes.io/managed-by" := "hydra-operator"])
  }

  ghost predicate ContainerThere(parse: Parser, c: Container, v: World) {
    forall name :: Lowered(c.id, name) ==>
      && ServiceThere(parse, c, name, v)
      && RouteThere(c, name, v)
      && forall d :: d in c.customDomains ==> MappingThere(c, name, d.hostname, v)
  }

  ghost predicate PolicyThere(allowed: seq<string>, v: World) {
    && Stored(v, Key(TemplateKind, "", "hydra-required-resource-limits"),
              TemplateSpec("K8sRequiredResourceLimits", "admission.k8s.gatekeeper.sh", RequiredLimitsRego), map[])
    && Stored(v, Key(TemplateKind, "", "hydra-block-privileged"),
              TemplateSpec("K8sBlockPrivileged", "admission.k8s.gatekeeper.sh", BlockPrivilegedRego), map[])
    && Stored(v, Key(TemplateKind, "", "hydra-allowed-repos"),
              TemplateSpec("K8sAllowedRepos", "admission.k8s.gatekeeper.sh", AllowedReposRego), map[])
    && Stored(v, Key(ConstraintKind("k8srequiredresourcelimits"), "", "hydra-required-resource-limits"),
              ConstraintSpec([""], ["Pod"], map[]), map[])
    && Stored(v, Key(ConstraintKind("k8sblockprivileged"), "", "hydra-block-privileged"),
              ConstraintSpec([""], ["Pod"], map[]), map[])
    && var k := Key(ConstraintKind("k8sallowedrepos"), "", "hydra-allowed-repos");
       if allowed == [] then At(v, k).obj.None?
       else Stored(v, k, ConstraintSpec([""], ["Pod"], map["repos" := allowed]), map[])
  }

  lemma LoweredIs(s: string, t: string)
    requires Lowered(s, t)
    ensures t == ToLower(s)
  {
    assert forall i :: 0 <= i < |s| ==> t[i] == LowerChar(s[i]);
  }

  lemma NamespaceIsThere(parse: Parser, ns: Namespace, w: World, v: World)
    requires NamespaceSettled(parse, ns, w, v)
    ensures NamespaceThere(parse, ns, w, v)
  {
    HardIsAsAsked(parse, ns.quotas);
    hide HardOf, QuotaAsAsked;
  }

  lemma ServiceIsThere(parse: Parser, c: Container, name: string, v: World)
    requires Lowered(c.id, name)
    requires Holds(v, ServiceKey(c), ServiceSpec(TemplateOf(parse, c), TrafficOf(c.traffic)), AgentLabels(c.id))
    ensures ServiceThere(parse, c, name, v)
  {
    ServiceIsAsAsked(parse, c);
    LoweredIs(c.id, name);
    hide TemplateOf, TrafficOf, SpecAsAsked;
  }

  lemma ContainerIsThere(parse: Parser, c: Container, v: World)
    requires ContainerSettled(parse, c, v)
    ensures ContainerThere(parse, c, v)
  {
    hide TemplateOf, TrafficOf, ServiceThere;
    forall name | Lowered(c.id, name)
      ensures ServiceThere(parse, c, name, v) && RouteThere(c, name, v)
      ensures forall d :: d in c.customDomains ==> MappingThere(c, name, d.hostname, v)
    {
      LoweredIs(c.id, name);
      ServiceIsThere(parse, c, name, v);
    }
  }

  lemma LimitsKindIs()
    ensures ToLower("K8sRequiredResourceLimits") == "k8srequiredresourcelimits"
  {
    LoweredIs("K8sRequiredResourceLimits", "k8srequiredresourcelimits");
  }

  lemma PrivilegedKindIs()
    ensures ToLower("K8sBlockPrivileged") == "k8sblockprivileged"
  {
    LoweredIs("K8sBlockPrivileged", "k8sblockprivileged");
  }

  lemma ReposKindIs()
    ensures ToLower("K8sAllowedRepos") == "k8sallowedrepos"
  {
    LoweredIs("K8sAllowedRepos", "k8sallowedrepos");
  }

  lemma PolicyKeysAre()
    ensures ConstraintKey(RequiredLimits)
            == Key(ConstraintKind("k8srequiredresourcelimits"), "", "hydra-required-resource-limits")
    ensures ConstraintKey(BlockPrivileged) == Key(ConstraintKind("k8sblockprivileged"), "", "hydra-block-privileged")
    ensures ConstraintKey(AllowedRepos) == Key(ConstraintKind("k8sallowedrepos"), "", "hydra-allowed-repos")
  {
    hide ToLower;
    LimitsKindIs();
    PrivilegedKindIs();
    ReposKindIs();
  }

  lemma PolicyIsThere(allowed: seq<string>, v: World)
    requires PolicySettled(allowed, v)
    ensures PolicyThere(allowed, v)
  {
    PolicyKeysAre();
    assert PolicyRego(RequiredLimits) == RequiredLimitsRego &&
           PolicyKind(RequiredLimits) == "K8sRequiredResourceLimits";
    assert PolicyRego(BlockPrivileged) == BlockPrivilegedRego && PolicyKind(BlockPrivileged) == "K8sBlockPrivileged";
    assert PolicyRego(AllowedRepos) == AllowedReposRego && PolicyKind(AllowedRepos) == "K8sAllowedRepos";
    hide ToLower, ConstraintKey;
    forall p
      ensures Holds(v, TemplateKey(p), TemplateSpec(PolicyKind(p), "admission.k8s.gatekeeper.sh", PolicyRego(p)), map[])
    {
    }
  }

  /**
   One sync none of whose own calls fails or is interfered with, written out: whatever the store was,
   all that the desired state lists is there afterwards, under these keys and with these values.
   */
  lemma SyncLeaves(x: Outside, w: World, st: DesiredState, gatekeeper: Option<bool>)
    requires DistinctKeys(st) && CalmBetween(x, w, Sync(x, w, Some(st), gatekeeper).world)
    ensures
      var v := Sync(x, w, Some(st), gatekeeper).world;
      && (gatekeeper == Some(true) ==> PolicyThere(st.allowedRegistries, v))
      && (forall i :: 0 <= i < |st.namespaces| ==> NamespaceThere(x.parse, st.namespaces[i], w, v))
      && (forall i :: 0 <= i < |st.containers| ==> ContainerThere(x.parse, st.containers[i], v))
  {
    hide Sync, DistinctKeys, CalmBetween, PolicySettled, NamespaceSettled, ContainerSettled, PolicyThere,
         NamespaceThere, ContainerThere;
    var v := Sync(x, w, Some(st), gatekeeper).world;
    SelfStabilisation(x, w, st, gatekeeper);
    if gatekeeper == Some(true) {
      PolicyIsThere(st.allowedRegistries, v);
    }
    forall i | 0 <= i < |st.namespaces|
      ensures NamespaceThere(x.parse, st.namespaces[i], w, v)
    {
      NamespaceIsThere(x.parse, st.namespaces[i], w, v);
    }
    forall i | 0 <= i < |st.containers|
      ensures ContainerThere(x.parse, st.containers[i], v)
    {
      ContainerIsThere(x.parse, st.containers[i], v);
    }
  }

  /** A namespace reported "synced" is there with its quota as asked for. */
  ghost predicate SyncedIsThere(parse: Parser, ns: Namespace, n: Node, v: World) {
    NamespaceReport(ns, n).syncStatus == "synced" ==>
      At(v, Key(NamespaceKind, "", ns.k8sName)).obj.Some? && QuotaThere(parse, ns, v)
  }

  /** A container not reported "error" has its Service as asked for. */
  ghost predicate ReportedIsThere(parse: Parser, c: Container, n: Node, v: World)
    requires ContainerShaped(c, n)
  {
    AgentReport(c, n).status != "error" ==> forall name :: Lowered(c.id, name) ==> ServiceThere(parse, c, name, v)
  }

  lemma SyncedNamespace(x: Outside, ns: Namespace, n: Node, w: World, v: World)
    requires NamespaceAssured(x, ns, n, w, v)
    ensures SyncedIsThere(x.parse, ns, n, v)
  {
    hide UndisturbedCalls, NamespaceError;
    HardIsAsAsked(x.parse, ns.quotas);
  }

  lemma ReportedContainer(parse: Parser, c: Container, n: Node, v: World)
    requires ContainerShaped(c, n) && ContainerAssured(parse, c, n, v)
    ensures ReportedIsThere(parse, c, n, v)
  {
    hide TemplateOf, TrafficOf, ServiceThere, AgentReport;
    forall name | Lowered(c.id, name) && AgentReport(c, n).status != "error"
      ensures ServiceThere(parse, c, name, v)
    {
      ServiceIsThere(parse, c, name, v);
    }
  }

  /** Reports of success, written out: whatever calls fail and whoever else writes, what they say is there. */
  lemma SuccessLeaves(x: Outside, w: World, st: DesiredState, gatekeeper: Option<bool>)
    requires DistinctKeys(st)
    ensures
      var r := SyncRun(x, w, st, gatekeeper);
      && (forall i :: 0 <= i < |st.namespaces| ==>
            SyncedIsThere(x.parse, st.namespaces[i], NamespaceNodes(st, r.1)[i], r.0))
      && (forall i :: 0 <= i < |st.containers| ==>
            ReportedIsThere(x.parse, st.containers[i], ContainerNodes(st, r.1)[i], r.0))
  {
    hide SyncRun, DistinctKeys, NamespaceAssured, ContainerAssured, SyncedIsThere, ReportedIsThere, ContainerShaped;
    SuccessMeansDone(x, w, st, gatekeeper);
    var r := SyncRun(x, w, st, gatekeeper);
    forall i | 0 <= i < |st.namespaces|
      ensures SyncedIsThere(x.parse, st.namespaces[i], NamespaceNodes(st, r.1)[i], r.0)
    {
      SyncedNamespace(x, st.namespaces[i], NamespaceNodes(st, r.1)[i], w, r.0);
    }
    forall i | 0 <= i < |st.containers|
      ensures ReportedIsThere(x.parse, st.containers[i], ContainerNodes(st, r.1)[i], r.0)
    {
      ReportedContainer(x.parse, st.containers[i], ContainerNodes(st, r.1)[i], r.0);
    }
  }

  // ----- The frame, and when keys are distinct -----

  /** The keys that a desired state speaks of. */
  ghost predicate SpokenOf(st: DesiredState, gatekeeper: Option<bool>, k: Key) {
    || (gatekeeper == Some(true) && k.namespace == "" && (k.kind.TemplateKind? || k.kind.ConstraintKind?) &&
        k.name in {"hydra-required-resource-limits", "hydra-block-privileged", "hydra-allowed-repos"})
    || (exists ns :: ns in st.namespaces &&
          (k == Key(NamespaceKind, "", ns.k8sName) || k == Key(QuotaKind, ns.k8sName, "hydra-quota")))
    || (exists c, name :: c in st.containers && Lowered(c.id, name) &&
          (k == Key(ServiceKind, c.namespaceK8sName, "ksvc-" + name)
           || k == Key(RouteKind, c.namespaceK8sName, "ksvc-" + name)))
    || (exists c, d ::
          c in st.containers && d in c.customDomains && k == Key(MappingKind, c.namespaceK8sName, d.hostname))
  }

  /** Whatever fails, a sync leaves everything else exactly as it was. */
  lemma SyncTouchesOnly(x: Outside, w: World, st: DesiredState, gatekeeper: Option<bool>, k: Key)
    requires !SpokenOf(st, gatekeeper, k)
    ensures At(Sync(x, w, Some(st), gatekeeper).world, k) == At(w, k)
  {
    hide Sync, SpokenOf;
    if Derived(st, gatekeeper == Some(true), k) {
      DerivedIsSpokenOf(st, gatekeeper, k);
    } else {
      SyncFrame(x, w, st, gatekeeper, k);
    }
  }

  lemma DerivedIsSpokenOf(st: DesiredState, gatekeeper: Option<bool>, k: Key)
    requires Derived(st, gatekeeper == Some(true), k)
    ensures SpokenOf(st, gatekeeper, k)
  {
    hide ToLower;
    if i: nat :| i < |st.namespaces| && k in NamespaceFoot(st.namespaces[i]) {
      assert st.namespaces[i] in st.namespaces;
    } else if i: nat :| i < |st.containers| && k in ContainerFoot(st.containers[i]) {
      var c := st.containers[i];
      assert c in st.containers;
      assert Lowered(c.id, ToLower(c.id)) by { LoweredSelf(c.id); }
      if k.kind.MappingKind? {
        var d :| d in c.customDomains && k == MappingKey(c, d.hostname);
      }
    }
  }

  lemma LoweredSelf(s: string)
    ensures Lowered(s, ToLower(s))
  {
  }

  /** The entries differ: by name, by ID up to case within a namespace, by hostname within a namespace. */
  ghost predicate EntriesDiffer(st: DesiredState) {
    var nss, cs := st.namespaces, st.containers;
    && (forall i, j :: 0 <= i < j < |nss| ==> nss[i].k8sName != nss[j].k8sName)
    && (forall i, j :: 0 <= i < j < |cs| && cs[i].namespaceK8sName == cs[j].namespaceK8sName ==>
          && !SameButCase(cs[i].id, cs[j].id)
          && (forall d, e :: d in cs[i].customDomains && e in cs[j].customDomains ==> d.hostname != e.hostname))
    && (forall i :: 0 <= i < |cs| ==>
          forall a, b :: 0 <= a < b < |cs[i].customDomains| ==>
            cs[i].customDomains[a].hostname != cs[i].customDomains[b].hostname)
  }

  /** That is all that the results on distinct keys ask for. */
  lemma DistinctMeans(st: DesiredState)
    ensures DistinctKeys(st) <==> EntriesDiffer(st)
  {
    hide SameButCase, ToLower;
    var cs := st.containers;
    forall i, j | 0 <= i < j < |cs|
      ensures SameButCase(cs[i].id, cs[j].id) <==> ToLower(cs[i].id) == ToLower(cs[j].id)
    {
      NamesCollide(cs[i].id, cs[j].id);
      assert KsvcNameFor(cs[i].id)[5..] == ToLower(cs[i].id) && KsvcNameFor(cs[j].id)[5..] == ToLower(cs[j].id);
    }
  }
}
