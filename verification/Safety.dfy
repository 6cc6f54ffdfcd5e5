/** What holds in every state that any number of replicas can reach, whatever fails and whoever crashes. */
module Safety {
  import opened Prelude
  import opened Objects
  import opened ApiServer
  import opened Tasks
  import opened Hydra
  import opened Plan
  import opened Footprints
  import opened Machine
  import opened Discipline

  /** Keys that no replica ever deletes. */
  predicate Permanent(k: Key) {
    || k.kind in {ServiceKind, TemplateKind, NamespaceKind, MappingKind}
    || k == ConstraintKey(RequiredLimits)
    || k == ConstraintKey(BlockPrivileged)
  }

  /** The key an object refers to: a Route's or mapping's Service, a constraint's template. */
  function Referent(k: Key, spec: Spec): Option<Key> {
    if k.kind.RouteKind? && spec.RouteSpec? then Some(Key(ServiceKind, k.namespace, spec.toName))
    else if k.kind.MappingKind? && spec.MappingSpec? then Some(Key(ServiceKind, k.namespace, spec.refName))
    else if k.kind.ConstraintKind? && spec.ConstraintSpec? then Some(Key(TemplateKind, "", k.name))
    else None
  }

  /**
   Given that the keys of `up` stand, every object the task can write refers to one that stands, and
   nothing permanent is deleted.
   */
  ghost predicate Planned(up: set<Key>, t: Task)
    decreases t
  {
    && (t.act.Upsert? && Referent(t.key, t.act.desired.spec).Some? ==> Referent(t.key, t.act.desired.spec).value in up)
    && (t.act.Ensure? ==> Referent(t.key, t.act.desired.spec).None?)
    && (t.act.Remove? || t.act.RemoveIfSeen? ==> !Permanent(t.key))
    && PlannedAll(if t.act.Upsert? && Permanent(t.key) then up + {t.key} else up, t.next)
  }

  ghost predicate PlannedAll(up: set<Key>, ts: seq<Task>)
    decreases ts
  {
    ts == [] || (Planned(up, ts[0]) && PlannedAll(up, ts[1..]))
  }

  lemma {:induction false} PlannedMore(up: set<Key>, more: set<Key>, ts: seq<Task>)
    requires PlannedAll(up, ts) && up <= more
    ensures PlannedAll(more, ts)
    decreases ts
  {
    hide Referent, Permanent;
    if ts != [] {
      var t := ts[0];
      PlannedMore(if t.act.Upsert? && Permanent(t.key) then up + {t.key} else up,
                  if t.act.Upsert? && Permanent(t.key) then more + {t.key} else more, t.next);
      PlannedMore(up, more, ts[1..]);
    }
  }

  lemma {:induction false} PlannedAppend(up: set<Key>, ts: seq<Task>, us: seq<Task>)
    ensures PlannedAll(up, ts + us) <==> PlannedAll(up, ts) && PlannedAll(up, us)
    decreases ts
  {
    hide Planned;
    if ts == [] {
      assert ts + us == us;
    } else {
      assert (ts + us)[1..] == ts[1..] + us;
      PlannedAppend(up, ts[1..], us);
    }
  }

  lemma {:induction false} PlannedEach(up: set<Key>, ts: seq<Task>)
    requires forall i :: 0 <= i < |ts| ==> Planned(up, ts[i])
    ensures PlannedAll(up, ts)
    decreases ts
  {
    hide Planned;
    if ts != [] {
      PlannedEach(up, ts[1..]);
    }
  }

  lemma PlannedLeaf(up: set<Key>, t: Task)
    requires t.next == []
    requires t.act.Upsert? && Referent(t.key, t.act.desired.spec).Some? ==>
             Referent(t.key, t.act.desired.spec).value in up
    requires !t.act.Ensure?
    requires t.act.Remove? || t.act.RemoveIfSeen? ==> !Permanent(t.key)
    ensures Planned(up, t) && PlannedAll(up, [t])
  {
    hide Permanent, Referent;
    assert PlannedAll(if t.act.Upsert? && Permanent(t.key) then up + {t.key} else up, t.next);
    assert Planned(up, t);
    assert [t][1..] == [];
    assert PlannedAll(up, [t][1..]);
  }

  lemma RoutePlanned(c: Container)
    ensures Planned({ServiceKey(c)}, RouteTask(c)) && PlannedAll({ServiceKey(c)}, [RouteTask(c)])
  {
    PlannedLeaf({ServiceKey(c)}, RouteTask(c));
  }

  lemma MappingPlanned(c: Container, d: CustomDomain)
    ensures Planned({ServiceKey(c)}, MappingTask(c, d))
  {
    PlannedLeaf({ServiceKey(c)}, MappingTask(c, d));
  }

  lemma ContainerPlanned(parse: Parser, c: Container)
    ensures Planned({}, ContainerTask(parse, c))
  {
    hide MappingTask, RouteTask;
    var t := ContainerTask(parse, c);
    var up := {ServiceKey(c)};
    RoutePlanned(c);
    forall i | 0 <= i < |c.customDomains|
      ensures Planned(up, MappingTasks(c, c.customDomains)[i])
    {
      MappingPlanned(c, c.customDomains[i]);
    }
    PlannedEach(up, MappingTasks(c, c.customDomains));
    PlannedAppend(up, [RouteTask(c)], MappingTasks(c, c.customDomains));
    assert {} + {t.key} == up;
  }

  lemma NamespacePlanned(parse: Parser, ns: Namespace)
    ensures Planned({}, NamespaceTask(parse, ns))
  {
    PlannedLeaf({}, QuotaTask(parse, ns));
  }

  lemma PlannedBelow(up: set<Key>, t: Task, below: Task)
    requires t.next == [below]
    requires t.act.Upsert? && (Referent(t.key, t.act.desired.spec).Some? ==>
                               Referent(t.key, t.act.desired.spec).value in up)
    requires Planned(if Permanent(t.key) then up + {t.key} else up, below)
    ensures Planned(up, t)
  {
    assert [below][1..] == [];
  }

  lemma PolicyPlanned(allowed: seq<string>)
    ensures Planned({}, PolicyTask(allowed))
  {
    PolicyNamesDiffer();
    var k1, k2, k3 := TemplateKey(RequiredLimits), TemplateKey(BlockPrivileged), TemplateKey(AllowedRepos);
    var k4, k5 := ConstraintKey(RequiredLimits), ConstraintKey(BlockPrivileged);
    var c3 := ConstraintTask(AllowedRepos, RepoParameters(allowed), []);
    var c2 := ConstraintTask(BlockPrivileged, Some(map[]), [c3]);
    var c1 := ConstraintTask(RequiredLimits, Some(map[]), [c2]);
    var t3 := TemplateTask(AllowedRepos, [c1]);
    var t2 := TemplateTask(BlockPrivileged, [t3]);
    hide Planned, PolicyName, PolicyKind;
    PlannedLeaf({k1} + {k2} + {k3} + {k4} + {k5}, c3);
    PlannedBelow({k1} + {k2} + {k3} + {k4}, c2, c3);
    PlannedBelow({k1} + {k2} + {k3}, c1, c2);
    PlannedBelow({k1} + {k2}, t3, c1);
    PlannedBelow({k1}, t2, t3);
    assert {} + {k1} == {k1};
    PlannedBelow({}, PolicyTask(allowed), t2);
  }

  lemma PlanPlanned(parse: Parser, st: DesiredState, g: bool)
    ensures PlannedAll({}, PlanOf(parse, st, g))
  {
    hide Planned;
    var p, n, c := PolicyTasks(g, st.allowedRegistries), NamespaceTasks(parse, st.namespaces),
        ContainerTasks(parse, st.containers);
    PolicyPlanned(st.allowedRegistries);
    PlannedEach({}, p);
    forall i | 0 <= i < |st.namespaces| ensures Planned({}, n[i]) { NamespacePlanned(parse, st.namespaces[i]); }
    PlannedEach({}, n);
    forall i | 0 <= i < |st.containers| ensures Planned({}, c[i]) { ContainerPlanned(parse, st.containers[i]); }
    PlannedEach({}, c);
    PlannedAppend({}, p, n);
    PlannedAppend({}, p + n, c);
  }

  // ----- The invariant -----

  /** The permanent keys whose objects exist. */
  function Standing(w: World): set<Key> {
    set k | k in w && w[k].obj.Some? && Permanent(k)
  }

  ghost predicate Stands(w: World, k: Key) {
    At(w, k).obj.Some?
  }

  /** Whatever a replica wrote that still exists refers only to what exists. */
  ghost predicate Anchored(s: Sys, k: Key) {
    k in s.written && Stands(s.world, k) && Referent(k, At(s.world, k).obj.value.spec).Some? ==>
      Stands(s.world, Referent(k, At(s.world, k).obj.value.spec).value)
  }

  ghost predicate Safe(s: Sys) {
    && (forall i :: 0 <= i < |s.replicas| ==> PlannedAll(Standing(s.world), s.replicas[i].todo))
    && (forall k :: Anchored(s, k))
  }

  /** One step keeps everything permanent. */
  lemma StepKeepsStanding(site: Site, s: Sys, e: Event)
    requires Safe(s) && Enabled(s, e)
    ensures Standing(s.world) <= Standing(Step(site, s, e).world)
    ensures e.Call? ==>
      var t := s.replicas[e.i].todo[0];
      var (d, p) := NextCall(site, s, e.i, e.fate);
      t.act.Upsert? && p.Finished? && p.outcome.Ok? && Permanent(t.key) ==> t.key in Standing(Step(site, s, e).world)
  {
    hide Micro, Permanent, Anchored, Referent;
    if e.Call? {
      var r := s.replicas[e.i];
      var t := r.todo[0];
      MicroEffect(site.subresource, e.fate, t.act, r.pc, At(s.world, t.key));
      MicroAnswer(site.subresource, e.fate, t.act, r.pc, At(s.world, t.key));
      assert Planned(Standing(s.world), t);
    }
  }

  lemma StepKeepsPlanned(site: Site, s: Sys, e: Event, i: nat)
    requires Safe(s) && Enabled(s, e) && i < |s.replicas|
    ensures PlannedAll(Standing(Step(site, s, e).world), Step(site, s, e).replicas[i].todo)
  {
    hide NextCall, Anchored, Referent, Permanent, Standing;
    var t := Step(site, s, e);
    StepKeepsStanding(site, s, e);
    PlannedMore(Standing(s.world), Standing(t.world), s.replicas[i].todo);
    if e.Begin? && e.i == i {
      PlanPlanned(site.parse, e.pull.state, e.pull.gatekeeper);
      PlannedMore({}, Standing(t.world), t.replicas[i].todo);
    } else if e.Call? && e.i == i {
      var r := s.replicas[i];
      var h := r.todo[0];
      var p := NextCall(site, s, i, e.fate).1;
      if p.Finished? && p.outcome.Ok? {
        var up := if h.act.Upsert? && Permanent(h.key) then Standing(s.world) + {h.key} else Standing(s.world);
        assert Planned(Standing(s.world), h);
        PlannedMore(up, Standing(t.world), h.next);
        PlannedAppend(Standing(t.world), h.next, r.todo[1..]);
      } else if p.Finished? {
        assert [] + r.todo[1..] == r.todo[1..];
      }
    }
  }

  lemma ReferentPermanent(k: Key, spec: Spec)
    requires Referent(k, spec).Some?
    ensures Permanent(Referent(k, spec).value)
  {
  }

  lemma StandingMeans(w: World, k: Key)
    requires Permanent(k)
    ensures Stands(w, k) <==> k in Standing(w)
  {
  }

  lemma StepKeepsAnchored(site: Site, s: Sys, e: Event, k: Key)
    requires Safe(s) && Enabled(s, e)
    ensures Anchored(Step(site, s, e), k)
  {
    hide Micro, PlannedAll, Referent, Permanent, Standing;
    var t := Step(site, s, e);
    assert Anchored(s, k);
    StepKeepsStanding(site, s, e);
    if k in t.written && Stands(t.world, k) && Referent(k, At(t.world, k).obj.value.spec).Some? {
      var spec := At(t.world, k).obj.value.spec;
      var ref := Referent(k, spec).value;
      ReferentPermanent(k, spec);
      StandingMeans(s.world, ref);
      StandingMeans(t.world, ref);
      if e.Call? && s.replicas[e.i].todo[0].key == k {
        var r := s.replicas[e.i];
        var h := r.todo[0];
        MicroEffect(site.subresource, e.fate, h.act, r.pc, At(s.world, k));
        assert Planned(Standing(s.world), h) by { HeadPlanned(Standing(s.world), r.todo); }
      }
    }
  }

  lemma HeadPlanned(up: set<Key>, ts: seq<Task>)
    requires PlannedAll(up, ts) && ts != []
    ensures Planned(up, ts[0])
  {
  }

  lemma StepSafe(site: Site, s: Sys, e: Event)
    requires Safe(s) && Enabled(s, e)
    ensures Safe(Step(site, s, e))
  {
    hide Step, Anchored, PlannedAll;
    var t := Step(site, s, e);
    assert |t.replicas| == |s.replicas| by { StepSize(site, s, e); }
    forall i | 0 <= i < |t.replicas|
      ensures PlannedAll(Standing(t.world), t.replicas[i].todo)
    {
      StepKeepsPlanned(site, s, e, i);
    }
    forall k
      ensures Anchored(t, k)
    {
      StepKeepsAnchored(site, s, e, k);
    }
  }

  lemma StepSize(site: Site, s: Sys, e: Event)
    requires Enabled(s, e)
    ensures |Step(site, s, e).replicas| == |s.replicas|
  {
  }

  lemma {:induction false} RunSafe(site: Site, s: Sys, es: seq<Event>)
    requires Safe(s) && Valid(site, s, es)
    ensures Safe(Exec(site, s, es))
    ensures Standing(s.world) <= Standing(Exec(site, s, es).world)
    decreases |es|
  {
    hide Step, Safe, Standing, Enabled;
    if es != [] {
      StepSafe(site, s, es[0]);
      StepKeepsStanding(site, s, es[0]);
      RunSafe(site, Step(site, s, es[0]), es[1..]);
    }
  }

  lemma InitialSafe(s: Sys)
    requires Initial(s)
    ensures Safe(s)
  {
  }

  // ----- Main results -----

  /**
   Referential integrity. From any store, after any run of any number of replicas, every Route and
   every DomainMapping that a replica wrote and that exists targets a Service that exists in its
   namespace; every constraint a replica wrote has its template.
   */
  lemma ReferentialIntegrity(site: Site, s: Sys, es: seq<Event>, k: Key)
    requires Initial(s) && Valid(site, s, es)
    ensures
      var t := Exec(site, s, es);
      k in t.written && Stands(t.world, k) ==>
        var spec := At(t.world, k).obj.value.spec;
        && (k.kind.RouteKind? && spec.RouteSpec? ==> Stands(t.world, Key(ServiceKind, k.namespace, spec.toName)))
        && (k.kind.MappingKind? && spec.MappingSpec? ==> Stands(t.world, Key(ServiceKind, k.namespace, spec.refName)))
        && (k.kind.ConstraintKind? && spec.ConstraintSpec? ==> Stands(t.world, Key(TemplateKind, "", k.name)))
  {
    hide Exec, Valid;
    InitialSafe(s);
    RunSafe(site, s, es);
    assert Anchored(Exec(site, s, es), k);
  }

  /** Namespaces, Services, mappings, templates and the two unconditional constraints, once there, stay. */
  lemma PermanentStays(site: Site, s: Sys, es: seq<Event>, m: nat, n: nat, k: Key)
    requires Initial(s) && Valid(site, s, es) && m <= n <= |es| && Permanent(k)
    ensures Valid(site, s, es[..m]) && Valid(site, s, es[..n])
    ensures Stands(Exec(site, s, es[..m]).world, k) ==> Stands(Exec(site, s, es[..n]).world, k)
  {
    hide Exec, Valid, Permanent, Safe, Standing, Enabled, Step, Initial;
    ExecPrefix(site, s, es, n);
    ExecPrefix(site, s, es[..n], m);
    assert es[..n][..m] == es[..m];
    InitialSafe(s);
    RunSafe(site, s, es[..m]);
    RunSafe(site, Exec(site, s, es[..m]), es[..n][m..]);
    StandingMeans(Exec(site, s, es[..m]).world, k);
    StandingMeans(Exec(site, s, es[..n]).world, k);
  }

  /** The n-th event brings the object at k into being. */
  ghost predicate CreatesAt(site: Site, s: Sys, es: seq<Event>, n: nat, k: Key)
    requires Valid(site, s, es) && n < |es|
  {
    ExecPrefix(site, s, es, n);
    !Stands(Exec(site, s, es[..n]).world, k) && Stands(Exec(site, s, es[..n + 1]).world, k)
  }

  /** However many replicas race for a Service (or anything permanent), it is created at most once. */
  lemma AtMostOneCreate(site: Site, s: Sys, es: seq<Event>, m: nat, n: nat, k: Key)
    requires Initial(s) && Valid(site, s, es) && m < n < |es| && Permanent(k)
    ensures !(CreatesAt(site, s, es, m, k) && CreatesAt(site, s, es, n, k))
  {
    hide Exec, Valid, Permanent, Initial, Stands;
    PermanentStays(site, s, es, m + 1, n, k);
  }

  /** The replica has seen k absent and is about to create it. */
  ghost predicate SawAbsent(r: Replica, k: Key) {
    r.todo != [] && r.pc == Absent && r.todo[0].key == k && r.todo[0].act.Ensure?
  }

  /** While k stands, nobody comes to see it absent. */
  lemma StepSeesPresent(site: Site, s: Sys, e: Event, i: nat, k: Key)
    requires Enabled(s, e) && i < |s.replicas| && Stands(s.world, k)
    ensures SawAbsent(Step(site, s, e).replicas[i], k) ==> SawAbsent(s.replicas[i], k)
  {
    hide Micro;
    if e.Call? && e.i == i {
      var r := s.replicas[i];
      var h := r.todo[0];
      MicroEffect(site.subresource, e.fate, h.act, r.pc, At(s.world, h.key));
      MicroAnswer(site.subresource, e.fate, h.act, r.pc, At(s.world, h.key));
    }
  }

  /** Who is about to create a permanent object that already stood at m has been so since m. */
  lemma {:induction false} SawAbsentBefore(site: Site, s: Sys, es: seq<Event>, i: nat, k: Key)
    requires Safe(s) && Valid(site, s, es) && Permanent(k) && Stands(s.world, k) && i < |s.replicas|
    ensures |Exec(site, s, es).replicas| == |s.replicas|
    ensures SawAbsent(Exec(site, s, es).replicas[i], k) ==> SawAbsent(s.replicas[i], k)
    decreases |es|
  {
    hide Step, Safe, Permanent, Standing, Enabled, Stands, SawAbsent;
    if es != [] {
      var t := Step(site, s, es[0]);
      StepSize(site, s, es[0]);
      StepSafe(site, s, es[0]);
      StepKeepsStanding(site, s, es[0]);
      StandingMeans(s.world, k);
      StandingMeans(t.world, k);
      StepSeesPresent(site, s, es[0], i, k);
      SawAbsentBefore(site, t, es[1..], i, k);
    }
  }

  /**
   Losing the race for a managed namespace. Replica i is about to create a namespace which another
   replica's call, the n-th event of the run, has already brought into being. Then i had seen it
   absent before that call; and its own call, unless made to fail or barred, leaves the winner's object alone
   and lets i go on to the namespace's quota as if it had won.
   */
  lemma LostNamespaceRace(site: Site, s: Sys, es: seq<Event>, n: nat, i: nat, f: Fate) returns (ns: Namespace)
    requires Initial(s) && Valid(site, s, es) && n < |es|
    requires Enabled(Exec(site, s, es), Call(i, f)) && f.verdict.Proceed? && !f.barred
    requires var r := Exec(site, s, es).replicas[i]; SawAbsent(r, r.todo[0].key)
    requires es[n].Call? && es[n].i != i && CreatesAt(site, s, es, n, Exec(site, s, es).replicas[i].todo[0].key)
    ensures Valid(site, s, es[..n]) && i < |Exec(site, s, es[..n]).replicas|
    ensures
      var u := Exec(site, s, es);
      var h := u.replicas[i].todo[0];
      var v := Step(site, u, Call(i, f));
      && SawAbsent(Exec(site, s, es[..n]).replicas[i], h.key)
      && ns.mode == "managed" && h == NamespaceTask(site.parse, ns)
      && v.replicas[i] == Replica([QuotaTask(site.parse, ns)] + u.replicas[i].todo[1..], Start)
      && At(v.world, h.key).obj == At(u.world, h.key).obj && Stands(v.world, h.key)
  {
    hide Exec, Valid, Safe, Standing, WellMade, Initial, Permanent;
    var u := Exec(site, s, es);
    var h := u.replicas[i].todo[0];
    NextWellMade(site, s, es, i);
    assert IsManagedNamespace(site.parse, h) by { EnsuredIsManaged(site.parse, h); }
    ns :| h == NamespaceTask(site.parse, ns) && ns.mode == "managed";
    assert Permanent(h.key) by { NamespacePermanent(h.key); }
    ExecPrefix(site, s, es, n);
    ExecPrefix(site, s, es, n + 1);
    var b, t := Exec(site, s, es[..n]), Exec(site, s, es[..n + 1]);
    InitialSafe(s);
    RunSafe(site, s, es[..n + 1]);
    PermanentStays(site, s, es, n + 1, |es|, h.key);
    assert es[..|es|] == es;
    StepSize(site, b, es[n]);
    RunSize(site, t, es[n + 1..]);
    SawAbsentBefore(site, t, es[n + 1..], i, h.key);
  }

  lemma EnsuredIsManaged(parse: Parser, t: Task)
    requires WellMade(parse, t) && t.act.Ensure?
    ensures IsManagedNamespace(parse, t)
  {
  }

  lemma NamespacePermanent(k: Key)
    requires k.kind == NamespaceKind
    ensures Permanent(k)
  {
  }

  lemma {:induction false} RunSize(site: Site, s: Sys, es: seq<Event>)
    requires Valid(site, s, es)
    ensures |Exec(site, s, es).replicas| == |s.replicas|
    decreases |es|
  {
    hide Step, Enabled;
    if es != [] {
      StepSize(site, s, es[0]);
      RunSize(site, Step(site, s, es[0]), es[1..]);
    }
  }
}
