/** What the tasks of every replica look like, in every state that can be reached. */
module Discipline {
  import opened Prelude
  import opened Objects
  import opened Tasks
  import opened Hydra
  import opened Plan
  import opened Machine

  /** The kinds whose updates carry status and annotations over from the object read. */
  predicate Carried(k: Kind) {
    k in {ServiceKind, RouteKind, MappingKind}
  }

  ghost predicate IsManagedNamespace(parse: Parser, t: Task) {
    exists ns :: t == NamespaceTask(parse, ns) && ns.mode == "managed"
  }

  /** At every depth, upserts of carried kinds carry, and only managed namespaces are ensured. */
  ghost predicate WellMade(parse: Parser, t: Task)
    decreases t
  {
    && (t.act.Upsert? && Carried(t.key.kind) ==> t.act.carry)
    && (t.act.Ensure? ==> IsManagedNamespace(parse, t))
    && AllWellMade(parse, t.next)
  }

  ghost predicate AllWellMade(parse: Parser, ts: seq<Task>)
    decreases ts
  {
    forall i :: 0 <= i < |ts| ==> WellMade(parse, ts[i])
  }

  lemma LeafWellMade(parse: Parser, t: Task)
    requires t.next == [] && !t.act.Ensure? && (t.act.Upsert? && Carried(t.key.kind) ==> t.act.carry)
    ensures WellMade(parse, t)
  {
  }

  lemma NamespaceWellMade(parse: Parser, ns: Namespace)
    ensures WellMade(parse, NamespaceTask(parse, ns))
  {
    var t := NamespaceTask(parse, ns);
    LeafWellMade(parse, QuotaTask(parse, ns));
    assert t.act.Ensure? ==> IsManagedNamespace(parse, t);
  }

  lemma ContainerWellMade(parse: Parser, c: Container)
    ensures WellMade(parse, ContainerTask(parse, c))
  {
    var t := ContainerTask(parse, c);
    forall i | 0 <= i < |t.next|
      ensures WellMade(parse, t.next[i])
    {
      if i == 0 {
        LeafWellMade(parse, RouteTask(c));
      } else {
        LeafWellMade(parse, MappingTask(c, c.customDomains[i - 1]));
      }
    }
  }

  lemma PolicyWellMade(parse: Parser, allowed: seq<string>)
    ensures WellMade(parse, PolicyTask(allowed))
  {
    var c3 := ConstraintTask(AllowedRepos, RepoParameters(allowed), []);
    var c2 := ConstraintTask(BlockPrivileged, Some(map[]), [c3]);
    var c1 := ConstraintTask(RequiredLimits, Some(map[]), [c2]);
    var t3 := TemplateTask(AllowedRepos, [c1]);
    var t2 := TemplateTask(BlockPrivileged, [t3]);
    LeafWellMade(parse, c3);
    StepWellMade(parse, c2, c3);
    StepWellMade(parse, c1, c2);
    StepWellMade(parse, t3, c1);
    StepWellMade(parse, t2, t3);
    StepWellMade(parse, PolicyTask(allowed), t2);
  }

  lemma StepWellMade(parse: Parser, t: Task, below: Task)
    requires t.next == [below] && WellMade(parse, below)
    requires !t.act.Ensure? && !Carried(t.key.kind)
    ensures WellMade(parse, t)
  {
  }

  lemma PlanWellMade(parse: Parser, st: DesiredState, gatekeeper: bool)
    ensures AllWellMade(parse, PlanOf(parse, st, gatekeeper))
  {
    hide WellMade, NamespaceTask, ContainerTask, PolicyTask;
    PolicyWellMade(parse, st.allowedRegistries);
    forall i | 0 <= i < |st.namespaces| ensures WellMade(parse, NamespaceTask(parse, st.namespaces[i])) {
      NamespaceWellMade(parse, st.namespaces[i]);
    }
    forall i | 0 <= i < |st.containers| ensures WellMade(parse, ContainerTask(parse, st.containers[i])) {
      ContainerWellMade(parse, st.containers[i]);
    }
  }

  ghost predicate Disciplined(parse: Parser, s: Sys) {
    forall i :: 0 <= i < |s.replicas| ==> AllWellMade(parse, s.replicas[i].todo)
  }

  lemma StepDisciplined(site: Site, s: Sys, e: Event)
    requires Disciplined(site.parse, s) && Enabled(s, e)
    ensures Disciplined(site.parse, Step(site, s, e))
  {
    hide NextCall, PlanOf, AllWellMade, WellMade;
    NothingToDo(site.parse);
    if e.Begin? {
      PlanWellMade(site.parse, e.pull.state, e.pull.gatekeeper);
    } else if e.Call? {
      WellMadeAfter(site.parse, s.replicas[e.i].todo);
    }
  }

  lemma NothingToDo(parse: Parser)
    ensures AllWellMade(parse, [])
  {
  }

  /** Whether a task succeeds or fails, what is left to do is well made. */
  lemma WellMadeAfter(parse: Parser, todo: seq<Task>)
    requires todo != [] && AllWellMade(parse, todo)
    ensures AllWellMade(parse, todo[0].next + todo[1..]) && AllWellMade(parse, [] + todo[1..])
  {
    var next := todo[0].next;
    assert WellMade(parse, todo[0]);
    assert AllWellMade(parse, next);
    forall i | 0 <= i < |next + todo[1..]|
      ensures WellMade(parse, (next + todo[1..])[i])
    {
      if i < |next| {
        assert WellMade(parse, next[i]);
      } else {
        assert WellMade(parse, todo[i - |next| + 1]);
      }
    }
    assert [] + todo[1..] == todo[1..];
  }

  lemma {:induction false} RunDisciplined(site: Site, s: Sys, es: seq<Event>)
    requires Disciplined(site.parse, s) && Valid(site, s, es)
    ensures Disciplined(site.parse, Exec(site, s, es))
    decreases |es|
  {
    hide Step, Disciplined, Enabled;
    if es != [] {
      StepDisciplined(site, s, es[0]);
      RunDisciplined(site, Step(site, s, es[0]), es[1..]);
    }
  }

  /** In every reachable state a replica's next task is well made. */
  lemma NextWellMade(site: Site, s: Sys, es: seq<Event>, i: nat)
    requires Initial(s) && Valid(site, s, es)
    requires i < |Exec(site, s, es).replicas| && Exec(site, s, es).replicas[i].todo != []
    ensures WellMade(site.parse, Exec(site, s, es).replicas[i].todo[0])
  {
    hide Valid, Exec, WellMade;
    RunDisciplined(site, s, es);
  }
}
