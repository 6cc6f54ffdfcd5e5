/**
 A server that refuses to create an object in a namespace that does not exist. A sync on such a
 server is a sync in the sense of the other modules, with creation barred for just those containers
 whose namespace is missing once the namespaces have been dealt with. So all results about syncs
 carry over; and here the order of a sync, namespaces before containers, matters.
 */
module Homes {
  import opened Prelude
  import opened Objects
  import opened ApiServer
  import opened Tasks
  import opened Locality
  import opened Settling
  import opened Hydra
  import opened Plan
  import opened Footprints
  import opened Reports
  import opened SyncTheorems
  import opened Convergence

  /** k lives in a namespace, and the namespace is not there. */
  predicate Homeless(w: World, k: Key) {
    k.namespace != "" && At(w, NamespaceKey(k.namespace)).obj.None?
  }

  /** The surroundings of a call made when the store is w. */
  function Strict(x: Outside, w: World): Outside {
    x.(fate := (k: Key, n: nat) => x.fate(k, n).(barred := x.fate(k, n).barred || Homeless(w, k)))
  }

  /** Visit and Run on such a server: each task meets the store as it is by then. */
  function StrictVisit(x: Outside, w: World, t: Task): (World, Node)
    decreases t
  {
    var (cell, out) := Do(Strict(x, w), t.key, t.act, At(w, t.key));
    var w1 := w[t.key := cell];
    if out.Err? then (w1, Node(t.key, cell, out, []))
    else
      var (w2, kids) := StrictRun(x, w1, t.next);
      (w2, Node(t.key, cell, out, kids))
  }

  function StrictRun(x: Outside, w: World, ts: seq<Task>): (r: (World, seq<Node>))
    ensures |r.1| == |ts|
    decreases ts
  {
    if ts == [] then (w, [])
    else
      var (w1, n) := StrictVisit(x, w, ts[0]);
      var (w2, rest) := StrictRun(x, w1, ts[1..]);
      (w2, [n] + rest)
  }

  lemma {:induction false} StrictRunAppend(x: Outside, w: World, ts: seq<Task>, us: seq<Task>)
    ensures var a := StrictRun(x, w, ts);
            var b := StrictRun(x, a.0, us);
            StrictRun(x, w, ts + us) == (b.0, a.1 + b.1)
    decreases ts
  {
    hide StrictVisit;
    if ts == [] {
      assert ts + us == us;
      assert [] + StrictRun(x, w, us).1 == StrictRun(x, w, us).1;
    } else {
      var (w1, n) := StrictVisit(x, w, ts[0]);
      assert (ts + us)[1..] == ts[1..] + us;
      StrictRunAppend(x, w1, ts[1..], us);
      var (w2, rest) := StrictRun(x, w1, ts[1..]);
      var b := StrictRun(x, w2, us);
      assert [n] + (rest + b.1) == ([n] + rest) + b.1;
    }
  }

  // ----- A strict run as a plain one -----

  /** In w and v the same namespaces are missing. */
  ghost predicate SameHomes(w: World, v: World) {
    forall k: Key :: k.kind.NamespaceKind? ==> At(w, k) == At(v, k)
  }

  /** On the keys of ks, none of them a namespace, y meets what x meets on a strict server with the namespaces of w. */
  ghost predicate BarredAsIn(x: Outside, y: Outside, w: World, ks: set<Key>) {
    && x.subresource == y.subresource
    && forall k :: k in ks ==> !k.kind.NamespaceKind? && forall n: nat :: y.fate(k, n) == Strict(x, w).fate(k, n)
  }

  lemma StrictDo(x: Outside, y: Outside, w: World, v: World, t: Task)
    requires BarredAsIn(x, y, w, {t.key}) && SameHomes(w, v)
    ensures Do(Strict(x, v), t.key, t.act, At(v, t.key)) == Do(y, t.key, t.act, At(v, t.key))
    ensures SameHomes(w, v[t.key := Do(y, t.key, t.act, At(v, t.key)).0])
  {
    hide Do;
    assert Homeless(w, t.key) == Homeless(v, t.key);
    DoLocal(Strict(x, v), y, t.key, t.act, At(v, t.key));
  }

  /** A forest that touches no namespace. */
  lemma {:induction false} StrictForest(x: Outside, y: Outside, w: World, v: World, ts: seq<Task>)
    requires BarredAsIn(x, y, w, Foot(ts)) && SameHomes(w, v)
    ensures StrictRun(x, v, ts) == Run(y, v, ts)
    ensures SameHomes(w, Run(y, v, ts).0)
    decreases ts
  {
    hide Do, BarredAsIn, SameHomes, Visit, StrictVisit;
    if ts != [] {
      var t := ts[0];
      FootHead(ts);
      BarredPart(x, y, w, Foot(ts), Foot([t]));
      BarredPart(x, y, w, Foot(ts), Foot(ts[1..]));
      StrictTree(x, y, w, v, t);
      StrictForest(x, y, w, Visit(y, v, t).0, ts[1..]);
    }
  }

  lemma {:induction false} StrictTree(x: Outside, y: Outside, w: World, v: World, t: Task)
    requires BarredAsIn(x, y, w, Foot([t])) && SameHomes(w, v)
    ensures StrictVisit(x, v, t) == Visit(y, v, t)
    ensures SameHomes(w, Visit(y, v, t).0)
    decreases t
  {
    hide Do, BarredAsIn, SameHomes, Run, StrictRun, Strict;
    FootHead([t]);
    BarredPart(x, y, w, Foot([t]), {t.key});
    BarredPart(x, y, w, Foot([t]), Foot(t.next));
    StrictDo(x, y, w, v, t);
    var d := Do(y, t.key, t.act, At(v, t.key));
    if d.1.Ok? {
      StrictForest(x, y, w, v[t.key := d.0], t.next);
    }
  }

  lemma BarredPart(x: Outside, y: Outside, w: World, ks: set<Key>, js: set<Key>)
    requires BarredAsIn(x, y, w, ks) && js <= ks
    ensures BarredAsIn(x, y, w, js)
  {
  }

  /** A namespace's quota is attempted only where the namespace is there, so nothing is refused for want of it. */
  lemma StrictNamespace(x: Outside, y: Outside, v: World, ns: Namespace)
    requires x.subresource == y.subresource
    requires forall k, n: nat :: k in NamespaceFoot(ns) ==> y.fate(k, n) == x.fate(k, n)
    ensures StrictVisit(x, v, NamespaceTask(x.parse, ns)) == Visit(y, v, NamespaceTask(x.parse, ns))
  {
    hide Do, QuotaObj;
    var t, q := NamespaceTask(x.parse, ns), QuotaTask(x.parse, ns);
    assert t.next == [q];
    DoLocal(Strict(x, v), y, t.key, t.act, At(v, t.key));
    var d := Do(y, t.key, t.act, At(v, t.key));
    OkLeaves(y, t.key, t.act, At(v, t.key));
    if d.1.Ok? {
      var v1 := v[t.key := d.0];
      assert !Homeless(v1, q.key);
      DoLocal(Strict(x, v1), y, q.key, q.act, At(v1, q.key));
      StrictLeaf(x, y, v1, q);
    }
  }

  lemma StrictLeaf(x: Outside, y: Outside, v: World, q: Task)
    requires q.next == []
    requires Do(Strict(x, v), q.key, q.act, At(v, q.key)) == Do(y, q.key, q.act, At(v, q.key))
    ensures StrictRun(x, v, [q]) == Run(y, v, [q])
  {
    hide Do;
    var w := v[q.key := Do(y, q.key, q.act, At(v, q.key)).0];
    assert [q][1..] == [];
    assert StrictRun(x, w, []) == Run(y, w, []);
  }

  lemma {:induction false} StrictNamespaces(x: Outside, y: Outside, v: World, nss: seq<Namespace>)
    requires x.subresource == y.subresource
    requires forall k: Key, n: nat :: k.kind in {NamespaceKind, QuotaKind} ==> y.fate(k, n) == x.fate(k, n)
    ensures StrictRun(x, v, NamespaceTasks(x.parse, nss)) == Run(y, v, NamespaceTasks(x.parse, nss))
    decreases |nss|
  {
    hide StrictVisit, Visit, NamespaceTask;
    if nss != [] {
      var ts := NamespaceTasks(x.parse, nss);
      assert ts[1..] == NamespaceTasks(x.parse, nss[1..]);
      StrictNamespace(x, y, v, nss[0]);
      StrictNamespaces(x, y, Visit(y, v, ts[0]).0, nss[1..]);
    }
  }

  // ----- A strict sync as a plain one -----

  /** What a sync has done before it turns to the containers. */
  function Groundwork(parse: Parser, st: DesiredState, g: bool): seq<Task> {
    PolicyTasks(g, st.allowedRegistries) + NamespaceTasks(parse, st.namespaces)
  }

  /** The store the containers find. */
  function Prepared(x: Outside, w: World, st: DesiredState, g: bool): World {
    Run(x, w, Groundwork(x.parse, st, g)).0
  }

  /** Kinds that live in a container's namespace. */
  predicate Housed(k: Kind) {
    k in {ServiceKind, RouteKind, MappingKind}
  }

  /** The surroundings in which creating a container's objects is barred where its namespace is missing. */
  function Barred(x: Outside, v: World): Outside {
    x.(fate := (k: Key, n: nat) => x.fate(k, n).(barred := x.fate(k, n).barred || (Housed(k.kind) && Homeless(v, k))))
  }

  lemma StrictGroundwork(x: Outside, y: Outside, w: World, st: DesiredState, g: bool)
    requires x.subresource == y.subresource
    requires forall k: Key, n: nat :: !Housed(k.kind) ==> y.fate(k, n) == x.fate(k, n)
    ensures StrictRun(x, w, Groundwork(x.parse, st, g)) == Run(y, w, Groundwork(x.parse, st, g))
  {
    hide Run, StrictRun, Foot, PolicyTasks, NamespaceTasks;
    var p, n := PolicyTasks(g, st.allowedRegistries), NamespaceTasks(x.parse, st.namespaces);
    PolicyTasksFoot(g, st.allowedRegistries);
    StrictForest(x, y, w, w, p);
    StrictNamespaces(x, y, Run(y, w, p).0, st.namespaces);
    StrictRunAppend(x, w, p, n);
    RunAppend(y, w, p, n);
  }

  lemma BarredMeans(x: Outside, v: World)
    ensures Barred(x, v).subresource == x.subresource && Barred(x, v).parse == x.parse
    ensures forall k: Key, n: nat :: !Housed(k.kind) ==> Barred(x, v).fate(k, n) == x.fate(k, n)
  {
  }

  lemma ContainerKeys(c: Container, k: Key)
    requires k in ContainerFoot(c)
    ensures Housed(k.kind) && k.namespace == c.namespaceK8sName
  {
  }

  lemma ContainersBarred(x: Outside, v: World, st: DesiredState)
    ensures BarredAsIn(x, Barred(x, v), v, Foot(ContainerTasks(x.parse, st.containers)))
  {
    hide Foot, ContainerTasks, ContainerFoot, Housed;
    ContainersFoot(x.parse, st);
    forall k | k in Foot(ContainerTasks(x.parse, st.containers))
      ensures Housed(k.kind)
    {
      var i :| 0 <= i < |st.containers| && k in ContainerFoot(st.containers[i]);
      ContainerKeys(st.containers[i], k);
    }
    AllBarred(x, v, Foot(ContainerTasks(x.parse, st.containers)));
  }

  lemma AllBarred(x: Outside, v: World, ks: set<Key>)
    requires forall k :: k in ks ==> Housed(k.kind)
    ensures BarredAsIn(x, Barred(x, v), v, ks)
  {
  }

  /** On a strict server the plan runs as it does on the other, with creation barred for the homeless. */
  lemma StrictIsPlain(x: Outside, w: World, st: DesiredState, g: bool)
    ensures StrictRun(x, w, PlanOf(x.parse, st, g)) == Run(Barred(x, Prepared(x, w, st, g)), w, PlanOf(x.parse, st, g))
  {
    hide Run, StrictRun, Foot, PolicyTasks, NamespaceTasks, ContainerTasks, BarredAsIn, Barred, Strict;
    var a, c := Groundwork(x.parse, st, g), ContainerTasks(x.parse, st.containers);
    var w1 := Prepared(x, w, st, g);
    var y := Barred(x, w1);
    BarredMeans(x, w1);
    StrictGroundwork(x, x, w, st, g);
    StrictGroundwork(x, y, w, st, g);
    ContainersBarred(x, w1, st);
    StrictForest(x, y, w1, w1, c);
    StrictRunAppend(x, w, a, c);
    RunAppend(y, w, a, c);
  }

  /** One sync with a desired state on a strict server. */
  ghost function StrictSync(x: Outside, w: World, st: DesiredState, gatekeeper: Option<bool>): (r: (World, seq<Node>))
    ensures PlanShaped(st, r.1)
  {
    var g := gatekeeper == Some(true);
    StrictIsPlain(x, w, st, g);
    SyncIsRun(Barred(x, Prepared(x, w, st, g)), w, st, gatekeeper);
    StrictRun(x, w, PlanOf(x.parse, st, g))
  }

  /** What it leaves and sends is what a sync does whose creations are barred for the homeless. */
  lemma StrictSyncIsSync(x: Outside, w: World, st: DesiredState, gatekeeper: Option<bool>)
    ensures
      var y := Barred(x, Prepared(x, w, st, gatekeeper == Some(true)));
      && StrictSync(x, w, st, gatekeeper) == SyncRun(y, w, st, gatekeeper)
      && Sync(y, w, Some(st), gatekeeper)
         == SyncResult(StrictSync(x, w, st, gatekeeper).0,
                       [PullDesiredState] + SyncReports(st, StrictSync(x, w, st, gatekeeper).1))
  {
    hide Run, StrictRun, Sync, SyncReports, PlanOf;
    StrictIsPlain(x, w, st, gatekeeper == Some(true));
  }

  /** The containers leave the namespaces as they find them. */
  lemma HomesKept(x: Outside, w: World, st: DesiredState, gatekeeper: Option<bool>)
    ensures SameHomes(Prepared(x, w, st, gatekeeper == Some(true)), StrictSync(x, w, st, gatekeeper).0)
  {
    hide Run, StrictRun, Foot, PolicyTasks, NamespaceTasks, ContainerTasks, BarredAsIn, Barred, Strict, SameHomes;
    var g := gatekeeper == Some(true);
    var a, c := Groundwork(x.parse, st, g), ContainerTasks(x.parse, st.containers);
    var w1 := Prepared(x, w, st, g);
    StrictGroundwork(x, x, w, st, g);
    ContainersBarred(x, w1, st);
    assert SameHomes(w1, w1) by { SameAsItself(w1); }
    StrictForest(x, Barred(x, w1), w1, w1, c);
    StrictRunAppend(x, w, a, c);
  }

  lemma SameAsItself(w: World)
    ensures SameHomes(w, w)
  {
  }

  lemma GroundworkFoot(parse: Parser, st: DesiredState, g: bool)
    ensures DistinctKeys(st) ==> Unique(Groundwork(parse, st, g))
    ensures forall name :: NamespaceKey(name) in Foot(Groundwork(parse, st, g)) <==>
              exists i :: 0 <= i < |st.namespaces| && st.namespaces[i].k8sName == name
  {
    hide Unique, Foot, PolicyTasks, NamespaceTasks;
    var p, n := PolicyTasks(g, st.allowedRegistries), NamespaceTasks(parse, st.namespaces);
    PolicyTasksFoot(g, st.allowedRegistries);
    NamespacesFoot(parse, st.namespaces);
    FootAppend(p, n);
    UniqueAppend(p, n);
  }

  /** Where the groundwork leaves a listed namespace. */
  lemma ListedNamespace(x: Outside, w: World, st: DesiredState, g: bool, i: nat)
    requires DistinctKeys(st) && i < |st.namespaces|
    ensures var t := NamespaceTask(x.parse, st.namespaces[i]);
            At(Prepared(x, w, st, g), t.key) == Do(x, t.key, t.act, At(w, t.key)).0
  {
    hide Unique, Foot, Do, Run, PolicyTasks, DistinctKeys;
    var ts := Groundwork(x.parse, st, g);
    GroundworkFoot(x.parse, st, g);
    RunReaches(x, w, ts);
    ReachedAt(x, w, Run(x, w, ts).0, ts, |PolicyTasks(g, st.allowedRegistries)| + i);
  }

  lemma UnlistedNamespace(x: Outside, w: World, st: DesiredState, g: bool, name: string)
    requires forall i :: 0 <= i < |st.namespaces| ==> st.namespaces[i].k8sName != name
    ensures At(Prepared(x, w, st, g), NamespaceKey(name)) == At(w, NamespaceKey(name))
  {
    hide Foot, Run, Groundwork, Cells;
    var ts := Groundwork(x.parse, st, g);
    GroundworkFoot(x.parse, st, g);
    RunWrites(x, w, ts);
  }

  // ----- Isolation -----

  /** Namespaces that are not hit are found alike. */
  lemma HomesAgree(x: Outside, y: Outside, w: World, st: DesiredState, g: bool, hit: iset<Key>, name: string)
    requires DistinctKeys(st) && DifferOnlyAt(x, y, hit) && NamespaceKey(name) !in hit
    ensures At(Prepared(x, w, st, g), NamespaceKey(name)) == At(Prepared(y, w, st, g), NamespaceKey(name))
  {
    hide Do, Prepared, DistinctKeys;
    if i: nat :| i < |st.namespaces| && st.namespaces[i].k8sName == name {
      ListedNamespace(x, w, st, g, i);
      ListedNamespace(y, w, st, g, i);
      var t := NamespaceTask(x.parse, st.namespaces[i]);
      DoLocal(x, y, t.key, t.act, At(w, t.key));
    } else {
      UnlistedNamespace(x, w, st, g, name);
      UnlistedNamespace(y, w, st, g, name);
    }
  }

  /** What is hit, and whatever lives in a namespace that is hit. */
  ghost function WithTenants(hit: iset<Key>): iset<Key> {
    iset k | k in hit || (Housed(k.kind) && NamespaceKey(k.namespace) in hit)
  }

  lemma BarredAlike(x: Outside, y: Outside, w: World, st: DesiredState, g: bool, hit: iset<Key>)
    requires DistinctKeys(st) && DifferOnlyAt(x, y, hit)
    ensures DifferOnlyAt(Barred(x, Prepared(x, w, st, g)), Barred(y, Prepared(y, w, st, g)), WithTenants(hit))
  {
    hide Prepared, DistinctKeys;
    var v, u := Prepared(x, w, st, g), Prepared(y, w, st, g);
    forall k, n: nat | k !in WithTenants(hit)
      ensures Barred(x, v).fate(k, n) == Barred(y, u).fate(k, n)
    {
      assert x.fate(k, n) == y.fate(k, n);
      if Housed(k.kind) {
        HomesAgree(x, y, w, st, g, hit, k.namespace);
        assert Homeless(v, k) == Homeless(u, k);
      }
    }
  }

  /**
   Failures are contained on a strict server too. If what befalls calls on the keys of `hit` changes
   in any way, every container none of whose keys is hit and whose namespace is not hit, and every
   namespace none of whose keys is hit, ends with the same objects and sends the same reports.
   */
  lemma StrictIsolation(x: Outside, y: Outside, w: World, st: DesiredState, gatekeeper: Option<bool>, hit: iset<Key>)
    requires DistinctKeys(st) && DifferOnlyAt(x, y, hit)
    ensures
      var a, b := StrictSync(x, w, st, gatekeeper), StrictSync(y, w, st, gatekeeper);
      var nss, cs := st.namespaces, st.containers;
      && (forall i ::
            0 <= i < |cs| && Spared(ContainerFoot(cs[i]), hit) && NamespaceKey(cs[i].namespaceK8sName) !in hit ==>
            SameForContainer(cs[i], a.0, ContainerNodes(st, a.1)[i], b.0, ContainerNodes(st, b.1)[i]))
      && (forall i :: 0 <= i < |nss| && Spared(NamespaceFoot(nss[i]), hit) ==>
            SameForNamespace(nss[i], a.0, NamespaceNodes(st, a.1)[i], b.0, NamespaceNodes(st, b.1)[i]))
  {
    hide StrictSync, SyncRun, SameForContainer, SameForNamespace, DistinctKeys, DifferOnlyAt, ContainerFoot,
         NamespaceFoot, Spared, Prepared, WithTenants, Barred, PlanShaped, AllShaped;
    var g := gatekeeper == Some(true);
    StrictSyncIsSync(x, w, st, gatekeeper);
    StrictSyncIsSync(y, w, st, gatekeeper);
    BarredAlike(x, y, w, st, g, hit);
    Isolation(Barred(x, Prepared(x, w, st, g)), Barred(y, Prepared(y, w, st, g)), w, st, gatekeeper, WithTenants(hit));
    EntriesSpared(st, hit);
  }

  lemma EntriesSpared(st: DesiredState, hit: iset<Key>)
    ensures forall i :: 0 <= i < |st.containers| && Spared(ContainerFoot(st.containers[i]), hit)
                        && NamespaceKey(st.containers[i].namespaceK8sName) !in hit ==>
              Spared(ContainerFoot(st.containers[i]), WithTenants(hit))
    ensures forall i :: 0 <= i < |st.namespaces| && Spared(NamespaceFoot(st.namespaces[i]), hit) ==>
              Spared(NamespaceFoot(st.namespaces[i]), WithTenants(hit))
  {
    hide Spared, ContainerFoot, NamespaceFoot, WithTenants;
    forall i | 0 <= i < |st.containers| && Spared(ContainerFoot(st.containers[i]), hit)
               && NamespaceKey(st.containers[i].namespaceK8sName) !in hit
      ensures Spared(ContainerFoot(st.containers[i]), WithTenants(hit))
    {
      ContainerSpared(st.containers[i], hit);
    }
    forall i | 0 <= i < |st.namespaces| && Spared(NamespaceFoot(st.namespaces[i]), hit)
      ensures Spared(NamespaceFoot(st.namespaces[i]), WithTenants(hit))
    {
      NamespaceSpared(st.namespaces[i], hit);
    }
  }

  lemma ContainerSpared(c: Container, hit: iset<Key>)
    requires Spared(ContainerFoot(c), hit) && NamespaceKey(c.namespaceK8sName) !in hit
    ensures Spared(ContainerFoot(c), WithTenants(hit))
  {
    hide ContainerFoot;
    forall k | k in ContainerFoot(c)
      ensures k !in WithTenants(hit)
    {
      ContainerKeys(c, k);
    }
  }

  lemma NamespaceSpared(ns: Namespace, hit: iset<Key>)
    requires Spared(NamespaceFoot(ns), hit)
    ensures Spared(NamespaceFoot(ns), WithTenants(hit))
  {
  }

  // ----- Order -----

  lemma PreparedReordered(x: Outside, w: World, a: DesiredState, b: DesiredState, g: bool)
    requires DistinctKeys(a) && Reordered(a, b)
    ensures Prepared(x, w, b, g) == Prepared(x, w, a, g)
  {
    hide Run, Parallel, Unique, Foot, DistinctKeys, PolicyTasks, NamespaceTasks, Cells;
    var ga, gb := Groundwork(x.parse, a, g), Groundwork(x.parse, b, g);
    var a', b' := a.(containers := []), b.(containers := []);
    PlanReordered(x.parse, a', b', g);
    assert PlanOf(x.parse, a', g) == ga + [] == ga && PlanOf(x.parse, b', g) == gb + [] == gb;
    GroundworkFoot(x.parse, a, g);
    OrderIrrelevant(x, w, ga, gb);
    RunIsParallel(x, w, ga);
    RunIsParallel(x, w, gb);
  }

  /** Listing the namespaces among themselves and the containers among themselves in another order changes nothing. */
  lemma StrictOrderIndependence(x: Outside, w: World, a: DesiredState, b: DesiredState, gatekeeper: Option<bool>)
    requires DistinctKeys(a) && Reordered(a, b)
    ensures
      var r, s := StrictSync(x, w, a, gatekeeper), StrictSync(x, w, b, gatekeeper);
      && s.0 == r.0
      && multiset([PullDesiredState] + SyncReports(b, s.1)) == multiset([PullDesiredState] + SyncReports(a, r.1))
  {
    hide StrictSync, Sync, SyncReports, DistinctKeys, Reordered, Prepared, Barred, PlanShaped;
    var g := gatekeeper == Some(true);
    PreparedReordered(x, w, a, b, g);
    StrictSyncIsSync(x, w, a, gatekeeper);
    StrictSyncIsSync(x, w, b, gatekeeper);
    OrderIndependence(Barred(x, Prepared(x, w, a, g)), w, a, b, gatekeeper);
  }

  // ----- Stabilisation -----

  /** The container's namespace is there, or is to be made. */
  ghost predicate Hosted(w: World, st: DesiredState, c: Container) {
    || c.namespaceK8sName == ""
    || Present(w, NamespaceKey(c.namespaceK8sName))
    || exists ns :: ns in st.namespaces && ns.k8sName == c.namespaceK8sName && ns.mode == "managed"
  }

  lemma HostReady(x: Outside, w: World, st: DesiredState, gatekeeper: Option<bool>, c: Container)
    requires DistinctKeys(st) && Hosted(w, st, c) && c.namespaceK8sName != ""
    requires CalmBetween(x, w, StrictSync(x, w, st, gatekeeper).0)
    ensures Present(Prepared(x, w, st, gatekeeper == Some(true)), NamespaceKey(c.namespaceK8sName))
  {
    hide StrictSync, Prepared, Do, DistinctKeys;
    var g := gatekeeper == Some(true);
    var k := NamespaceKey(c.namespaceK8sName);
    HomesKept(x, w, st, gatekeeper);
    if i: nat :| i < |st.namespaces| && st.namespaces[i].k8sName == c.namespaceK8sName {
      var t := NamespaceTask(x.parse, st.namespaces[i]);
      ListedNamespace(x, w, st, g, i);
      assert CalmCalls(x, k, At(w, k), At(StrictSync(x, w, st, gatekeeper).0, k));
      CalmDo(x, t.key, t.act, At(w, t.key));
      if st.namespaces[i].mode != "managed" {
        OneOfAName(st, i);
      }
    } else {
      UnlistedNamespace(x, w, st, g, c.namespaceK8sName);
    }
  }

  lemma OneOfAName(st: DesiredState, i: nat)
    requires DistinctKeys(st) && i < |st.namespaces|
    ensures forall j :: 0 <= j < |st.namespaces| && st.namespaces[j].k8sName == st.namespaces[i].k8sName ==> j == i
  {
  }

  /**
   Self-stabilisation on a strict server. One sync none of whose own calls fails or is interfered
   with settles everything listed, even from a store in which the managed namespaces do not exist
   yet: they are there by the time their containers are turned to.
   */
  lemma StrictStabilisation(x: Outside, w: World, st: DesiredState, gatekeeper: Option<bool>)
    requires DistinctKeys(st) && CalmBetween(x, w, StrictSync(x, w, st, gatekeeper).0)
    requires forall i :: 0 <= i < |st.containers| ==> Hosted(w, st, st.containers[i])
    ensures Settled(x.parse, st, gatekeeper, w, StrictSync(x, w, st, gatekeeper).0)
  {
    hide StrictSync, Sync, SyncReports, Prepared, DistinctKeys, Hosted, Settled, CalmBetween, PlanShaped;
    var y := Barred(x, Prepared(x, w, st, gatekeeper == Some(true)));
    StrictSyncIsSync(x, w, st, gatekeeper);
    forall k
      ensures CalmCalls(y, k, At(w, k), At(Sync(y, w, Some(st), gatekeeper).world, k))
    {
      NotBarred(x, w, st, gatekeeper, k);
    }
    CalmAll(y, w, Sync(y, w, Some(st), gatekeeper).world);
    SelfStabilisation(y, w, st, gatekeeper);
  }

  lemma CalmAll(x: Outside, w: World, v: World)
    requires forall k :: CalmCalls(x, k, At(w, k), At(v, k))
    ensures CalmBetween(x, w, v)
  {
  }

  /** Nothing that the sync touches is barred. */
  lemma NotBarred(x: Outside, w: World, st: DesiredState, gatekeeper: Option<bool>, k: Key)
    requires DistinctKeys(st) && CalmBetween(x, w, StrictSync(x, w, st, gatekeeper).0)
    requires forall i :: 0 <= i < |st.containers| ==> Hosted(w, st, st.containers[i])
    ensures CalmCalls(Barred(x, Prepared(x, w, st, gatekeeper == Some(true))), k, At(w, k),
                      At(StrictSync(x, w, st, gatekeeper).0, k))
  {
    hide StrictSync, Sync, SyncReports, Prepared, DistinctKeys, Hosted, Derived, Barred, Homeless, Housed;
    var g := gatekeeper == Some(true);
    var w1 := Prepared(x, w, st, g);
    StrictSyncIsSync(x, w, st, gatekeeper);
    assert CalmCalls(x, k, At(w, k), At(StrictSync(x, w, st, gatekeeper).0, k));
    if !Derived(st, g, k) {
      SyncFrame(Barred(x, w1), w, st, gatekeeper, k);
    } else {
      if Housed(k.kind) {
        NotHomeless(x, w, st, gatekeeper, k);
      }
      SameFate(x, w1, k);
    }
  }

  lemma SameFate(x: Outside, v: World, k: Key)
    requires !Housed(k.kind) || !Homeless(v, k)
    ensures forall n: nat :: Barred(x, v).fate(k, n) == x.fate(k, n)
  {
  }

  lemma NotHomeless(x: Outside, w: World, st: DesiredState, gatekeeper: Option<bool>, k: Key)
    requires DistinctKeys(st) && CalmBetween(x, w, StrictSync(x, w, st, gatekeeper).0)
    requires forall i :: 0 <= i < |st.containers| ==> Hosted(w, st, st.containers[i])
    requires Derived(st, gatekeeper == Some(true), k) && Housed(k.kind)
    ensures !Homeless(Prepared(x, w, st, gatekeeper == Some(true)), k)
  {
    hide StrictSync, Prepared, DistinctKeys, Hosted, PolicyFoot, NamespaceFoot, ContainerFoot, CalmBetween, Housed;
    if k.namespace != "" {
      OthersNotHoused(st, k);
      var i :| 0 <= i < |st.containers| && k in ContainerFoot(st.containers[i]);
      ContainerKeys(st.containers[i], k);
      HostReady(x, w, st, gatekeeper, st.containers[i]);
    }
  }

  lemma OthersNotHoused(st: DesiredState, k: Key)
    requires Housed(k.kind)
    ensures k !in PolicyFoot()
    ensures forall i :: 0 <= i < |st.namespaces| ==> k !in NamespaceFoot(st.namespaces[i])
  {
  }

  /**
   The order is needed. A container whose namespace is missing when it is turned to, and whose
   Service does not exist, is reported as an error and nothing of it is created.
   */
  lemma TooEarly(x: Outside, v: World, c: Container)
    requires Homeless(v, ServiceKey(c)) && !Present(v, ServiceKey(c))
    requires var t := ContainerTask(x.parse, c);
             UndisturbedCalls(x, t.key, At(v, t.key), Do(Strict(x, v), t.key, t.act, At(v, t.key)).0)
    ensures var (w, n) := StrictVisit(x, v, ContainerTask(x.parse, c));
            && ContainerShaped(c, n) && AgentReport(c, n).status == "error"
            && forall k :: At(w, k).obj == At(v, k).obj
  {
    hide StrictVisit, Do, ContainerTask, Strict;
    var t := ContainerTask(x.parse, c);
    ContainerRoot(x, v, c);
    NothingCreated(Strict(x, v), t.key, t.act, At(v, t.key));
    StrictFailure(x, v, t);
  }

  lemma ContainerRoot(x: Outside, v: World, c: Container)
    requires Homeless(v, ServiceKey(c))
    ensures ContainerTask(x.parse, c).key == ServiceKey(c) && ContainerTask(x.parse, c).act.Upsert?
    ensures forall n: nat :: Strict(x, v).fate(ServiceKey(c), n).barred
    ensures forall k, n: nat :: Strict(x, v).fate(k, n).noise == x.fate(k, n).noise
  {
  }

  lemma StrictFailure(x: Outside, v: World, t: Task)
    requires Do(Strict(x, v), t.key, t.act, At(v, t.key)).1.Err?
    ensures var d := Do(Strict(x, v), t.key, t.act, At(v, t.key));
            StrictVisit(x, v, t) == (v[t.key := d.0], Node(t.key, d.0, d.1, []))
  {
    hide Do;
  }

  lemma NothingCreated(x: Outside, k: Key, a: Action, c: Cell)
    requires a.Upsert? && c.obj.None?
    requires UndisturbedCalls(x, k, c, Do(x, k, a, c).0) && forall n: nat :: x.fate(k, n).barred
    ensures Do(x, k, a, c).1.Err? && Do(x, k, a, c).0.obj.None?
  {
    var (c1, p1) := Micro(x.subresource, Next(x, k, c), a, Start, c);
    assert c1.calls == c.calls + 1;
    assert Next(x, k, c).noise.None?;
    if p1.More? {
      assert Next(x, k, c1).noise.None?;
    }
  }
}
