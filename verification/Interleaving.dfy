/** Optimistic concurrency: no update overwrites what it did not read, and no object mixes two replicas' specs. */
module Interleaving {
  import opened Prelude
  import opened Objects
  import opened ApiServer
  import opened Tasks
  import opened Hydra
  import opened Naming
  import opened Translation
  import opened Plan
  import opened Footprints
  import opened Machine
  import opened Safety
  import opened Discipline

  // ----- What a replica remembers of its read -----

  /** The object a replica holds is no newer than the stored one, and is the stored one if the versions agree. */
  ghost predicate Remembers(w: World, r: Replica) {
    r.todo != [] && r.pc.Seen? ==>
      var c := At(w, r.todo[0].key);
      && r.pc.stored.version <= c.version
      && (r.pc.stored.version == c.version ==> c.obj == Some(r.pc.stored.obj))
  }

  ghost predicate Remembering(s: Sys) {
    forall i :: 0 <= i < |s.replicas| ==> Remembers(s.world, s.replicas[i])
  }

  lemma StepRemembers(site: Site, s: Sys, e: Event)
    requires Remembering(s) && Enabled(s, e)
    ensures Remembering(Step(site, s, e))
  {
    hide Micro;
    var t := Step(site, s, e);
    if e.Call? {
      var r := s.replicas[e.i];
      var h := r.todo[0];
      MicroEffect(site.subresource, e.fate, h.act, r.pc, At(s.world, h.key));
      MicroAnswer(site.subresource, e.fate, h.act, r.pc, At(s.world, h.key));
    }
    forall i | 0 <= i < |t.replicas|
      ensures Remembers(t.world, t.replicas[i])
    {
      assert Remembers(s.world, s.replicas[i]);
    }
  }

  lemma {:induction false} RunRemembers(site: Site, s: Sys, es: seq<Event>)
    requires Remembering(s) && Valid(site, s, es)
    ensures Remembering(Exec(site, s, es))
    decreases |es|
  {
    hide Step, Remembering, Enabled;
    if es != [] {
      StepRemembers(site, s, es[0]);
      RunRemembers(site, Step(site, s, es[0]), es[1..]);
    }
  }

  /**
   No lost update. After any run, let a replica issue the update of a Service, Route or mapping.
   If the object changed since the replica read it, the call changes nothing and the task fails. If
   the call does write, status and top-level annotations are exactly what they were immediately
   before, whether or not the server shields status.
   */
  lemma NoLostUpdate(site: Site, s: Sys, es: seq<Event>, i: nat, f: Fate)
    requires Initial(s) && Valid(site, s, es) && Enabled(Exec(site, s, es), Call(i, f))
    requires var r := Exec(site, s, es).replicas[i]; r.pc.Seen? && r.todo[0].act.Upsert? && Carried(r.todo[0].key.kind)
    ensures
      var u := Exec(site, s, es);
      var r, h := u.replicas[i], u.replicas[i].todo[0];
      var v := Step(site, u, Call(i, f));
      var before, after := At(u.world, h.key), At(v.world, h.key);
      && (before.version != r.pc.stored.version ==>
            && after.obj == before.obj && after.version == before.version
            && v.replicas[i] == Replica(r.todo[1..], Start))
      && (after.version == before.version ==> after.obj == before.obj)
      && (after.version != before.version ==>
            && before.obj.Some? && after.obj.Some?
            && after.obj.value == before.obj.value.(spec := h.act.desired.spec, labels := h.act.desired.labels))
  {
    hide Exec, Valid, Micro, Remembering;
    var u := Exec(site, s, es);
    assert Remembering(s) by { InitialRemembers(s); }
    RunRemembers(site, s, es);
    NextWellMade(site, s, es, i);
    assert Remembers(u.world, u.replicas[i]) by { RemembersAt(u, i); }
    var r, h := u.replicas[i], u.replicas[i].todo[0];
    MicroEffect(site.subresource, f, h.act, r.pc, At(u.world, h.key));
    MicroAnswer(site.subresource, f, h.act, r.pc, At(u.world, h.key));
    assert [] + r.todo[1..] == r.todo[1..];
  }

  lemma InitialRemembers(s: Sys)
    requires Initial(s)
    ensures Remembering(s)
  {
  }

  lemma RemembersAt(s: Sys, i: nat)
    requires Remembering(s) && i < |s.replicas|
    ensures Remembers(s.world, s.replicas[i])
  {
  }

  // ----- The first write -----

  /** As long as key k is at version v, whoever has read it has read just that. */
  ghost predicate FreshAt(s: Sys, k: Key, v: nat) {
    && At(s.world, k).version >= v
    && (At(s.world, k).version == v ==>
          forall i :: 0 <= i < |s.replicas| ==> ReadsFresh(s.world, s.replicas[i], k, v))
  }

  ghost predicate ReadsFresh(w: World, r: Replica, k: Key, v: nat) {
    r.todo != [] && r.todo[0].key == k ==>
      && (r.pc.Seen? ==> r.pc.stored.version == v && At(w, k).obj.Some?)
      && (r.pc.Absent? ==> At(w, k).obj.None?)
  }

  lemma StepFresh(site: Site, s: Sys, e: Event, k: Key, v: nat)
    requires FreshAt(s, k, v) && Enabled(s, e)
    ensures FreshAt(Step(site, s, e), k, v)
  {
    hide Micro;
    var t := Step(site, s, e);
    if e.Call? {
      var r := s.replicas[e.i];
      var h := r.todo[0];
      MicroEffect(site.subresource, e.fate, h.act, r.pc, At(s.world, h.key));
      MicroAnswer(site.subresource, e.fate, h.act, r.pc, At(s.world, h.key));
    }
    if At(t.world, k).version == v {
      forall i | 0 <= i < |t.replicas|
        ensures ReadsFresh(t.world, t.replicas[i], k, v)
      {
        assert ReadsFresh(s.world, s.replicas[i], k, v);
      }
    }
  }

  lemma {:induction false} RunFresh(site: Site, s: Sys, es: seq<Event>, k: Key, v: nat)
    requires FreshAt(s, k, v) && Valid(site, s, es)
    ensures FreshAt(Exec(site, s, es), k, v)
    decreases |es|
  {
    hide Step, FreshAt, Enabled;
    if es != [] {
      StepFresh(site, s, es[0], k, v);
      RunFresh(site, Step(site, s, es[0]), es[1..], k, v);
    }
  }

  /**
   The first write to reach the server succeeds. Whatever reads came before, as long as nothing
   has written key k since the start, an upsert's write that is not made to fail or barred is carried out,
   and the object's spec is that replica's alone.
   */
  lemma FirstWriteSucceeds(site: Site, s: Sys, es: seq<Event>, i: nat, f: Fate)
    requires Initial(s) && Valid(site, s, es) && Enabled(Exec(site, s, es), Call(i, f))
    requires f.verdict.Proceed? && !f.barred
    requires var r := Exec(site, s, es).replicas[i]; r.pc != Start && r.todo[0].act.Upsert?
    requires var k := Exec(site, s, es).replicas[i].todo[0].key;
             At(Exec(site, s, es).world, k).version == At(s.world, k).version
    ensures
      var u := Exec(site, s, es);
      var h := u.replicas[i].todo[0];
      var v := Step(site, u, Call(i, f));
      && At(v.world, h.key).version == At(s.world, h.key).version + 1
      && At(v.world, h.key).obj.Some?
      && At(v.world, h.key).obj.value.spec == h.act.desired.spec
      && v.replicas[i] == Replica(h.next + u.replicas[i].todo[1..], Start)
  {
    hide Exec, Valid;
    var u := Exec(site, s, es);
    var r := u.replicas[i];
    var k := r.todo[0].key;
    RunFresh(site, s, es, k, At(s.world, k).version);
    assert ReadsFresh(u.world, r, k, At(s.world, k).version);
  }

  // ----- Where specs come from -----

  /** Some task of the forest, at any depth, writes this spec and these labels to k. */
  ghost predicate Asks(ts: seq<Task>, k: Key, spec: Spec, labels: Labels)
    decreases ts
  {
    ts != [] && (AsksOne(ts[0], k, spec, labels) || Asks(ts[1..], k, spec, labels))
  }

  ghost predicate AsksOne(t: Task, k: Key, spec: Spec, labels: Labels)
    decreases t
  {
    || ((t.act.Upsert? || t.act.Ensure?) && t.key == k && t.act.desired.spec == spec && t.act.desired.labels == labels)
    || Asks(t.next, k, spec, labels)
  }

  lemma {:induction false} AsksAppend(ts: seq<Task>, us: seq<Task>, k: Key, spec: Spec, labels: Labels)
    ensures Asks(ts + us, k, spec, labels) <==> Asks(ts, k, spec, labels) || Asks(us, k, spec, labels)
    decreases ts
  {
    hide AsksOne;
    if ts == [] {
      assert ts + us == us;
    } else {
      assert (ts + us)[1..] == ts[1..] + us;
      AsksAppend(ts[1..], us, k, spec, labels);
    }
  }

  /** One of the desired states pulled so far builds this spec and these labels for k. */
  ghost predicate Asked(parse: Parser, pulled: seq<Pull>, k: Key, spec: Spec, labels: Labels) {
    exists j :: 0 <= j < |pulled| && Asks(PlanOf(parse, pulled[j].state, pulled[j].gatekeeper), k, spec, labels)
  }

  /** Every write still to come, and every object a replica wrote, was asked for whole by one pulled state. */
  ghost predicate Traced(parse: Parser, s: Sys) {
    && (forall i, k, spec, labels :: 0 <= i < |s.replicas| && Asks(s.replicas[i].todo, k, spec, labels) ==>
          Asked(parse, s.pulled, k, spec, labels))
    && (forall k :: k in s.written && Stands(s.world, k) ==>
          Asked(parse, s.pulled, k, At(s.world, k).obj.value.spec, At(s.world, k).obj.value.labels))
  }

  lemma AskedMore(parse: Parser, pulled: seq<Pull>, p: Pull, k: Key, spec: Spec, labels: Labels)
    ensures Asked(parse, pulled, k, spec, labels) ==> Asked(parse, pulled + [p], k, spec, labels)
    ensures Asks(PlanOf(parse, p.state, p.gatekeeper), k, spec, labels) ==> Asked(parse, pulled + [p], k, spec, labels)
  {
    hide Asks, PlanOf;
    if Asked(parse, pulled, k, spec, labels) {
      var j :| 0 <= j < |pulled| && Asks(PlanOf(parse, pulled[j].state, pulled[j].gatekeeper), k, spec, labels);
      assert (pulled + [p])[j] == pulled[j];
    }
    assert (pulled + [p])[|pulled|] == p;
  }

  lemma TodoTraced(site: Site, s: Sys, e: Event, i: nat, k: Key, spec: Spec, labels: Labels)
    requires Traced(site.parse, s) && Enabled(s, e) && i < |s.replicas|
    requires Asks(Step(site, s, e).replicas[i].todo, k, spec, labels)
    ensures Asked(site.parse, Step(site, s, e).pulled, k, spec, labels)
  {
    hide NextCall, Asked, PlanOf, AsksOne;
    if e.Begin? {
      AskedMore(site.parse, s.pulled, e.pull, k, spec, labels);
    } else if e.Call? && e.i == i {
      var r := s.replicas[i];
      var h := r.todo[0];
      var p := NextCall(site, s, i, e.fate).1;
      if p.Finished? {
        AsksAppend(if p.outcome.Ok? then h.next else [], r.todo[1..], k, spec, labels);
        assert Asks(h.next, k, spec, labels) ==> AsksOne(h, k, spec, labels) by { AsksBelow(h, k, spec, labels); }
      }
    }
  }

  lemma AsksBelow(t: Task, k: Key, spec: Spec, labels: Labels)
    ensures Asks(t.next, k, spec, labels) ==> AsksOne(t, k, spec, labels)
  {
  }

  lemma AsksHead(ts: seq<Task>)
    requires ts != [] && (ts[0].act.Upsert? || ts[0].act.Ensure?)
    ensures Asks(ts, ts[0].key, ts[0].act.desired.spec, ts[0].act.desired.labels)
  {
  }

  lemma StoreTraced(site: Site, s: Sys, e: Event, k: Key)
    requires Traced(site.parse, s) && Enabled(s, e)
    requires k in Step(site, s, e).written && Stands(Step(site, s, e).world, k)
    ensures Asked(site.parse, Step(site, s, e).pulled, k, At(Step(site, s, e).world, k).obj.value.spec,
                  At(Step(site, s, e).world, k).obj.value.labels)
  {
    hide Micro, Asked, Asks, PlanOf;
    if e.Call? && s.replicas[e.i].todo[0].key == k {
      var r := s.replicas[e.i];
      var h := r.todo[0];
      MicroEffect(site.subresource, e.fate, h.act, r.pc, At(s.world, k));
      if h.act.Upsert? || h.act.Ensure? {
        AsksHead(r.todo);
      }
    } else if e.Begin? {
      AskedMore(site.parse, s.pulled, e.pull, k, At(s.world, k).obj.value.spec, At(s.world, k).obj.value.labels);
    }
  }

  lemma StepTraced(site: Site, s: Sys, e: Event)
    requires Traced(site.parse, s) && Enabled(s, e)
    ensures Traced(site.parse, Step(site, s, e))
  {
    hide Asked, Asks, Step, Enabled;
    var t := Step(site, s, e);
    StepSize(site, s, e);
    forall i, k, spec, labels | 0 <= i < |t.replicas| && Asks(t.replicas[i].todo, k, spec, labels)
      ensures Asked(site.parse, t.pulled, k, spec, labels)
    {
      TodoTraced(site, s, e, i, k, spec, labels);
    }
    forall k | k in t.written && Stands(t.world, k)
      ensures Asked(site.parse, t.pulled, k, At(t.world, k).obj.value.spec, At(t.world, k).obj.value.labels)
    {
      StoreTraced(site, s, e, k);
    }
  }

  lemma {:induction false} RunTraced(site: Site, s: Sys, es: seq<Event>)
    requires Traced(site.parse, s) && Valid(site, s, es)
    ensures Traced(site.parse, Exec(site, s, es))
    decreases |es|
  {
    hide Step, Traced, Enabled;
    if es != [] {
      StepTraced(site, s, es[0]);
      RunTraced(site, Step(site, s, es[0]), es[1..]);
    }
  }

  lemma {:induction false} AsksSome(ts: seq<Task>, k: Key, spec: Spec, labels: Labels) returns (i: nat)
    requires Asks(ts, k, spec, labels)
    ensures i < |ts| && AsksOne(ts[i], k, spec, labels)
    decreases ts
  {
    hide AsksOne;
    if AsksOne(ts[0], k, spec, labels) {
      i := 0;
    } else {
      var j := AsksSome(ts[1..], k, spec, labels);
      i := j + 1;
    }
  }

  lemma AsksOfLeaf(t: Task, k: Key, spec: Spec, labels: Labels)
    requires t.next == []
    ensures AsksOne(t, k, spec, labels) <==>
            && (t.act.Upsert? || t.act.Ensure?)
            && t.key == k && t.act.desired.spec == spec && t.act.desired.labels == labels
  {
  }

  lemma AsksOfContainer(parse: Parser, c: Container, k: Key, spec: Spec, labels: Labels)
    requires AsksOne(ContainerTask(parse, c), k, spec, labels)
    ensures k.kind in {ServiceKind, RouteKind, MappingKind}
    ensures k.kind == ServiceKind ==>
            k == ServiceKey(c) && spec == ServiceOf(parse, c).spec && labels == ServiceOf(parse, c).labels
  {
    var t := ContainerTask(parse, c);
    if Asks(t.next, k, spec, labels) {
      var i := AsksSome(t.next, k, spec, labels);
      AsksOfLeaf(t.next[i], k, spec, labels);
    }
  }

  lemma AsksOfNamespace(parse: Parser, ns: Namespace, k: Key, spec: Spec, labels: Labels)
    requires AsksOne(NamespaceTask(parse, ns), k, spec, labels)
    ensures k.kind in {NamespaceKind, QuotaKind}
  {
    var t := NamespaceTask(parse, ns);
    if Asks(t.next, k, spec, labels) {
      AsksOfLeaf(QuotaTask(parse, ns), k, spec, labels);
      var i := AsksSome(t.next, k, spec, labels);
    }
  }

  lemma AsksOfOne(t: Task, below: Task, k: Key, spec: Spec, labels: Labels)
    requires t.next == [below] && AsksOne(t, k, spec, labels)
    ensures AsksOne(below, k, spec, labels) ||
            ((t.act.Upsert? || t.act.Ensure?) && t.key == k && t.act.desired.spec == spec &&
             t.act.desired.labels == labels)
  {
    assert [below][1..] == [];
    assert !Asks([], k, spec, labels);
    assert Asks([below], k, spec, labels) ==> AsksOne(below, k, spec, labels);
  }

  lemma AsksOfPolicy(allowed: seq<string>, k: Key, spec: Spec, labels: Labels)
    requires AsksOne(PolicyTask(allowed), k, spec, labels)
    ensures k in PolicyFoot() && (k.kind.ConstraintKind? ==> spec.ConstraintSpec?)
    ensures k == ConstraintKey(AllowedRepos) ==>
              allowed != [] && spec == ConstraintSpec([""], ["Pod"], map["repos" := allowed])
  {
    hide AsksOne, ToLower;
    PolicyNamesDiffer();
    var c3 := ConstraintTask(AllowedRepos, RepoParameters(allowed), []);
    var c2 := ConstraintTask(BlockPrivileged, Some(map[]), [c3]);
    var c1 := ConstraintTask(RequiredLimits, Some(map[]), [c2]);
    var t3 := TemplateTask(AllowedRepos, [c1]);
    var t2 := TemplateTask(BlockPrivileged, [t3]);
    var t1 := TemplateTask(RequiredLimits, [t2]);
    assert t1 == PolicyTask(allowed);
    AsksOfOne(t1, t2, k, spec, labels);
    if AsksOne(t2, k, spec, labels) { AsksOfOne(t2, t3, k, spec, labels); }
    if AsksOne(t3, k, spec, labels) { AsksOfOne(t3, c1, k, spec, labels); }
    if AsksOne(c1, k, spec, labels) { AsksOfOne(c1, c2, k, spec, labels); }
    if AsksOne(c2, k, spec, labels) { AsksOfOne(c2, c3, k, spec, labels); }
    AsksOfLeaf(c3, k, spec, labels);
  }

  /** What a plan can write to a Service key, and to a constraint. */
  lemma AsksOfPlan(parse: Parser, p: Pull, k: Key, spec: Spec, labels: Labels)
    requires Asks(PlanOf(parse, p.state, p.gatekeeper), k, spec, labels)
    ensures k.kind == ServiceKind ==>
              exists c :: c in p.state.containers && k == ServiceKey(c)
                          && spec == ServiceOf(parse, c).spec && labels == ServiceOf(parse, c).labels
    ensures k.kind.ConstraintKind? ==> spec.ConstraintSpec?
    ensures k == ConstraintKey(AllowedRepos) ==>
              && p.state.allowedRegistries != []
              && spec == ConstraintSpec([""], ["Pod"], map["repos" := p.state.allowedRegistries])
  {
    hide AsksOne, ContainerTask, NamespaceTask, PolicyTask, ServiceOf;
    var plan := PlanOf(parse, p.state, p.gatekeeper);
    var i := AsksSome(plan, k, spec, labels);
    var g := |PolicyTasks(p.gatekeeper, p.state.allowedRegistries)|;
    if i < g {
      AsksOfPolicy(p.state.allowedRegistries, k, spec, labels);
    } else if i < g + |p.state.namespaces| {
      AsksOfNamespace(parse, p.state.namespaces[i - g], k, spec, labels);
    } else {
      var c := p.state.containers[i - g - |p.state.namespaces|];
      AsksOfContainer(parse, c, k, spec, labels);
      assert c in p.state.containers;
    }
  }

  lemma InitialTraced(parse: Parser, s: Sys)
    requires Initial(s)
    ensures Traced(parse, s)
  {
  }

  /**
   Never a mixture. After any run of any number of replicas, a Service that a replica wrote has
   exactly the spec and labels that one container of one pulled desired state translates to.
   */
  lemma ServiceNeverMixed(site: Site, s: Sys, es: seq<Event>, k: Key)
    requires Initial(s) && Valid(site, s, es) && k.kind == ServiceKind
    ensures
      var t := Exec(site, s, es);
      k in t.written && Stands(t.world, k) ==>
        exists j, c :: 0 <= j < |t.pulled| && c in t.pulled[j].state.containers && k == ServiceKey(c)
                       && At(t.world, k).obj.value.spec == ServiceOf(site.parse, c).spec
                       && At(t.world, k).obj.value.labels == ServiceOf(site.parse, c).labels
  {
    hide Exec, Valid, Asks, PlanOf, ServiceOf;
    InitialTraced(site.parse, s);
    RunTraced(site, s, es);
    var t := Exec(site, s, es);
    if k in t.written && Stands(t.world, k) {
      var spec, labels := At(t.world, k).obj.value.spec, At(t.world, k).obj.value.labels;
      assert Asked(site.parse, t.pulled, k, spec, labels);
      var j :| 0 <= j < |t.pulled| &&
               Asks(PlanOf(site.parse, t.pulled[j].state, t.pulled[j].gatekeeper), k, spec, labels);
      AsksOfPlan(site.parse, t.pulled[j], k, spec, labels);
    }
  }

  // ----- Policy -----

  /** An object that is there was there at the start or was written by a replica. */
  ghost predicate Accounted(w: World, s: Sys) {
    forall k :: Stands(s.world, k) ==> Stands(w, k) || k in s.written
  }

  lemma StepAccounted(site: Site, w: World, s: Sys, e: Event)
    requires Accounted(w, s) && Enabled(s, e)
    ensures Accounted(w, Step(site, s, e))
  {
    hide Micro;
    if e.Call? {
      var r := s.replicas[e.i];
      MicroEffect(site.subresource, e.fate, r.todo[0].act, r.pc, At(s.world, r.todo[0].key));
    }
  }

  lemma {:induction false} RunAccounted(site: Site, w: World, s: Sys, es: seq<Event>)
    requires Accounted(w, s) && Valid(site, s, es)
    ensures Accounted(w, Exec(site, s, es))
    decreases |es|
  {
    hide Step, Accounted, Enabled;
    if es != [] {
      StepAccounted(site, w, s, es[0]);
      RunAccounted(site, w, Step(site, s, es[0]), es[1..]);
    }
  }

  /**
   Policy safety. From a store without Hydra's policy objects, in every reachable state: a
   constraint is there only if its template is; the resource-limit and privileged constraints,
   once there, are there ever after; and the registry constraint, when there, carries a nonempty
   list that some pulled desired state gave, in its order.
   */
  lemma PolicySafety(site: Site, s: Sys, es: seq<Event>, m: nat, p: Policy)
    requires Initial(s) && Valid(site, s, es) && m <= |es|
    requires forall k :: k in PolicyFoot() ==> !Stands(s.world, k)
    ensures Valid(site, s, es[..m])
    ensures
      var t := Exec(site, s, es);
      && (Stands(t.world, ConstraintKey(p)) ==> Stands(t.world, TemplateKey(p)))
      && (p != AllowedRepos && Stands(Exec(site, s, es[..m]).world, ConstraintKey(p)) ==>
          Stands(t.world, ConstraintKey(p)))
      && (Stands(t.world, ConstraintKey(AllowedRepos)) ==>
            exists j :: 0 <= j < |t.pulled| && t.pulled[j].state.allowedRegistries != []
                        && At(t.world, ConstraintKey(AllowedRepos)).obj.value.spec
                           == ConstraintSpec([""], ["Pod"], map["repos" := t.pulled[j].state.allowedRegistries]))
  {
    hide Exec, Valid, Asks, PlanOf, ToLower, PolicyName;
    var t := Exec(site, s, es);
    assert es[..|es|] == es;
    PermanentStays(site, s, es, m, |es|, if p == AllowedRepos then TemplateKey(p) else ConstraintKey(p));
    RunAccounted(site, s.world, s, es);
    InitialTraced(site.parse, s);
    RunTraced(site, s, es);
    ReferentialIntegrity(site, s, es, ConstraintKey(p));
    if Stands(t.world, ConstraintKey(p)) {
      ConstraintTraced(site, t, ConstraintKey(p), p);
    }
    if Stands(t.world, ConstraintKey(AllowedRepos)) {
      var k := ConstraintKey(AllowedRepos);
      var spec, labels := At(t.world, k).obj.value.spec, At(t.world, k).obj.value.labels;
      assert Asked(site.parse, t.pulled, k, spec, labels);
      var j :| 0 <= j < |t.pulled| &&
               Asks(PlanOf(site.parse, t.pulled[j].state, t.pulled[j].gatekeeper), k, spec, labels);
      AsksOfPlan(site.parse, t.pulled[j], k, spec, labels);
    }
  }

  lemma ConstraintTraced(site: Site, t: Sys, k: Key, p: Policy)
    requires Traced(site.parse, t) && k in t.written && Stands(t.world, k) && k == ConstraintKey(p)
    ensures At(t.world, k).obj.value.spec.ConstraintSpec?
  {
    hide Asks, PlanOf, ToLower, PolicyName;
    var spec, labels := At(t.world, k).obj.value.spec, At(t.world, k).obj.value.labels;
    assert Asked(site.parse, t.pulled, k, spec, labels);
    var j :| 0 <= j < |t.pulled| &&
             Asks(PlanOf(site.parse, t.pulled[j].state, t.pulled[j].gatekeeper), k, spec, labels);
    AsksOfPlan(site.parse, t.pulled[j], k, spec, labels);
  }
}
