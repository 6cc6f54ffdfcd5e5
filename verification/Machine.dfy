/**
 Any number of operator replicas, call by call, on one API server. Between any two calls another
 replica may call, a replica may crash and restart, a new sync may begin with any desired state,
 and controllers may write status and annotations. Any call may be refused or lose its reply.
 */
module Machine {
  import opened Prelude
  import opened Objects
  import opened ApiServer
  import opened Tasks
  import opened Hydra
  import opened Plan

  /** A replica's remaining work; pc says what it knows of the first task's key. */
  datatype Replica = Replica(todo: seq<Task>, pc: Pc)

  datatype Pull = Pull(state: DesiredState, gatekeeper: bool)

  /** `pulled` and `written` are history: the desired states ever begun, the keys ever written by a replica. */
  datatype Sys = Sys(world: World, replicas: seq<Replica>, pulled: seq<Pull>, written: set<Key>)

  datatype Site = Site(subresource: bool, parse: Parser)

  datatype Event =
    | Begin(i: nat, pull: Pull)
    | Call(i: nat, fate: Fate)
    | Crash(i: nat)
    | Environment(k: Key, status: Status, annotations: Labels)

  predicate Enabled(s: Sys, e: Event) {
    match e
    case Begin(i, _) => i < |s.replicas| && s.replicas[i].todo == []
    case Call(i, f) => i < |s.replicas| && s.replicas[i].todo != [] && f.noise.None?
    case Crash(i) => i < |s.replicas|
    case Environment(k, _, _) => At(s.world, k).obj.Some?
  }

  /** What the replica does next, and how its key and its progress come out of it. */
  function NextCall(site: Site, s: Sys, i: nat, f: Fate): (Cell, Progress)
    requires i < |s.replicas| && s.replicas[i].todo != []
  {
    var r := s.replicas[i];
    Micro(site.subresource, f, r.todo[0].act, r.pc, At(s.world, r.todo[0].key))
  }

  function Advanced(r: Replica, p: Progress): Replica
    requires r.todo != []
  {
    match p
    case More(pc) => r.(pc := pc)
    case Finished(o) => Replica((if o.Ok? then r.todo[0].next else []) + r.todo[1..], Start)
  }

  function Step(site: Site, s: Sys, e: Event): Sys
    requires Enabled(s, e)
  {
    match e
    case Begin(i, p) =>
      s.(replicas := s.replicas[i := Replica(PlanOf(site.parse, p.state, p.gatekeeper), Start)],
         pulled := s.pulled + [p])
    case Call(i, f) =>
      var r := s.replicas[i];
      var k := r.todo[0].key;
      var (cell, p) := NextCall(site, s, i, f);
      Sys(s.world[k := cell],
          s.replicas[i := Advanced(r, p)],
          s.pulled,
          if cell.version != At(s.world, k).version && cell.obj.Some? then s.written + {k} else s.written)
    case Crash(i) => s.(replicas := s.replicas[i := Replica([], Start)])
    case Environment(k, st, an) =>
      var c := At(s.world, k);
      s.(world := s.world[k := Store(c, Some(c.obj.value.(status := st, annotations := an)))])
  }

  ghost predicate Valid(site: Site, s: Sys, es: seq<Event>)
    decreases |es|
  {
    es == [] || (Enabled(s, es[0]) && Valid(site, Step(site, s, es[0]), es[1..]))
  }

  ghost function Exec(site: Site, s: Sys, es: seq<Event>): Sys
    requires Valid(site, s, es)
    decreases |es|
  {
    if es == [] then s else Exec(site, Step(site, s, es[0]), es[1..])
  }

  lemma {:induction false} ExecAppend(site: Site, s: Sys, es: seq<Event>, fs: seq<Event>)
    requires Valid(site, s, es)
    ensures Valid(site, s, es + fs) <==> Valid(site, Exec(site, s, es), fs)
    ensures Valid(site, s, es + fs) ==> Exec(site, s, es + fs) == Exec(site, Exec(site, s, es), fs)
    decreases |es|
  {
    hide Step, Enabled;
    if es == [] {
      assert es + fs == fs;
    } else {
      assert (es + fs)[1..] == es[1..] + fs;
      ExecAppend(site, Step(site, s, es[0]), es[1..], fs);
    }
  }

  /** Any prefix of a run is a run. */
  lemma ExecPrefix(site: Site, s: Sys, es: seq<Event>, n: nat)
    requires Valid(site, s, es) && n <= |es|
    ensures Valid(site, s, es[..n])
    ensures Valid(site, Exec(site, s, es[..n]), es[n..])
    ensures Exec(site, s, es) == Exec(site, Exec(site, s, es[..n]), es[n..])
    ensures n < |es| ==> Enabled(Exec(site, s, es[..n]), es[n])
    ensures n < |es| ==>
            Valid(site, s, es[..n + 1]) && Exec(site, s, es[..n + 1]) == Step(site, Exec(site, s, es[..n]), es[n])
  {
    hide Step, Enabled;
    PrefixValid(site, s, es, n);
    assert es == es[..n] + es[n..];
    ExecAppend(site, s, es[..n], es[n..]);
    if n < |es| {
      assert es[..n + 1] == es[..n] + [es[n]];
      assert [es[n]][1..] == [];
      ExecAppend(site, s, es[..n], [es[n]]);
    }
  }

  lemma {:induction false} PrefixValid(site: Site, s: Sys, es: seq<Event>, n: nat)
    requires Valid(site, s, es) && n <= |es|
    ensures Valid(site, s, es[..n])
    decreases n
  {
    hide Step, Enabled;
    if n > 0 {
      assert es[..n][1..] == es[1..][..n - 1];
      PrefixValid(site, Step(site, s, es[0]), es[1..], n - 1);
    }
  }

  /** A place to start: any store, replicas that have not begun, no history. */
  ghost predicate Initial(s: Sys) {
    && (forall i :: 0 <= i < |s.replicas| ==> s.replicas[i] == Replica([], Start))
    && s.pulled == []
    && s.written == {}
  }

  // ----- What one call can do to its cell -----

  /** A call either leaves the object alone, or writes it once, as its action says. */
  lemma MicroEffect(sub: bool, f: Fate, a: Action, pc: Pc, c: Cell)
    requires f.noise.None?
    ensures
      var (d, p) := Micro(sub, f, a, pc, c);
      && d.calls == c.calls + 1
      && (d.version == c.version ==> d.obj == c.obj)
      && (d.version != c.version ==>
            && d.version == c.version + 1
            && (a.Remove? || a.RemoveIfSeen? ==> d.obj == None)
            && (a.Ensure? ==>
                  && c.obj.None?
                  && d.obj.Some? && d.obj.value.spec == a.desired.spec && d.obj.value.labels == a.desired.labels)
            && (a.Upsert? ==>
                  && d.obj.Some? && d.obj.value.spec == a.desired.spec && d.obj.value.labels == a.desired.labels
                  && (pc.Absent? ==> c.obj.None?)
                  && (pc.Seen? ==> c.obj.Some? && c.version == pc.stored.version
                                   && d.obj.value.annotations == Revised(a, pc.stored.obj).annotations
                                   && d.obj.value.status
                                      == (if sub then c.obj.value.status else Revised(a, pc.stored.obj).status)))
            && !a.Require?)
  {
  }

  /** What a call's answer tells: the object read is the one stored, and success means presence. */
  lemma MicroAnswer(sub: bool, f: Fate, a: Action, pc: Pc, c: Cell)
    requires f.noise.None?
    ensures
      var (d, p) := Micro(sub, f, a, pc, c);
      && (p == More(Absent) ==> d.obj.None?)
      && (p.More? && p.pc.Seen? ==> d.obj == Some(p.pc.stored.obj) && d.version == p.pc.stored.version)
      && p != More(Start)
      && (p.More? ==> d.version == c.version)
      && (p.Finished? && p.outcome.Ok? && (a.Upsert? || a.Ensure?) ==> d.obj.Some?)
      && (p.Finished? && p.outcome.Ok? && a.Upsert? ==> d.version != c.version)
      && (a.Upsert? && pc.Seen? && c.version != pc.stored.version ==>
          d.version == c.version && p.Finished? && p.outcome.Err?)
  {
  }

  // ----- The sequential run is a run of this machine -----

  /** The fates of x involve no other writer. */
  ghost predicate Quiet(x: Outside) {
    forall k, n: nat :: x.fate(k, n).noise.None?
  }

  ghost predicate CallsOnly(es: seq<Event>) {
    forall e :: e in es ==> e.Call? && e.i == 0
  }

  /** One replica alone, meeting the fates of x, gets through the tasks ts exactly as Run does. */
  lemma {:induction false} MachineRunsForest(x: Outside, s: Sys, ts: seq<Task>, rest: seq<Task>)
    returns (es: seq<Event>)
    requires Quiet(x) && s.replicas == [Replica(ts + rest, Start)]
    ensures var site := Site(x.subresource, x.parse);
            && CallsOnly(es) && Valid(site, s, es)
            && Exec(site, s, es).world == Run(x, s.world, ts).0
            && Exec(site, s, es).replicas == [Replica(rest, Start)]
    decreases ts
  {
    hide Micro, Visit;
    var site := Site(x.subresource, x.parse);
    if ts == [] {
      es := [];
      assert ts + rest == rest;
    } else {
      assert (ts + rest)[1..] == ts[1..] + rest;
      assert [ts[0]] + (ts[1..] + rest) == ts + rest;
      var e1 := MachineVisits(x, s, ts[0], ts[1..] + rest);
      var s1 := Exec(site, s, e1);
      var e2 := MachineRunsForest(x, s1, ts[1..], rest);
      es := e1 + e2;
      ExecAppend(site, s, e1, e2);
    }
  }

  lemma {:induction false} MachineVisits(x: Outside, s: Sys, t: Task, rest: seq<Task>) returns (es: seq<Event>)
    requires Quiet(x) && s.replicas == [Replica([t] + rest, Start)]
    ensures var site := Site(x.subresource, x.parse);
            && CallsOnly(es) && Valid(site, s, es)
            && Exec(site, s, es).world == Visit(x, s.world, t).0
            && Exec(site, s, es).replicas == [Replica(rest, Start)]
    decreases t
  {
    hide Do, Run, Micro;
    var site := Site(x.subresource, x.parse);
    var d := Do(x, t.key, t.act, At(s.world, t.key));
    var e1 := MachineDoes(x, s, t, rest);
    var s1 := Exec(site, s, e1);
    if d.1.Ok? {
      var e2 := MachineRunsForest(x, s1, t.next, rest);
      es := e1 + e2;
      ExecAppend(site, s, e1, e2);
    } else {
      es := e1;
      assert [] + rest == rest;
    }
  }

  lemma MachineDoes(x: Outside, s: Sys, t: Task, rest: seq<Task>) returns (es: seq<Event>)
    requires Quiet(x) && s.replicas == [Replica([t] + rest, Start)]
    ensures var site := Site(x.subresource, x.parse);
            var d := Do(x, t.key, t.act, At(s.world, t.key));
            && CallsOnly(es) && Valid(site, s, es)
            && Exec(site, s, es).world == s.world[t.key := d.0]
            && Exec(site, s, es).replicas == [Replica((if d.1.Ok? then t.next else []) + rest, Start)]
  {
    hide Micro;
    var site := Site(x.subresource, x.parse);
    var k, c := t.key, At(s.world, t.key);
    assert ([t] + rest)[1..] == rest;
    var a := Call(0, Next(x, k, c));
    assert Enabled(s, a);
    var s1 := Step(site, s, a);
    var (c1, p1) := Micro(x.subresource, Next(x, k, c), t.act, Start, c);
    assert [a][1..] == [];
    match p1
    case Finished(o) =>
      es := [a];
      assert Exec(site, s, es) == Exec(site, s1, []);
    case More(pc) =>
      assert s1.replicas == [Replica([t] + rest, pc)];
      var b := Call(0, Next(x, k, c1));
      assert Enabled(s1, b);
      var s2 := Step(site, s1, b);
      MicroEnds(x.subresource, Next(x, k, c), Next(x, k, c1), t.act, c);
      es := [a, b];
      assert es[1..] == [b] && [b][1..] == [];
      assert Valid(site, s2, []);
      assert Valid(site, s1, [b]);
      assert Valid(site, s, es);
      assert Exec(site, s, es) == Exec(site, s1, [b]) == Exec(site, s2, []);
      assert s.world[k := c1][k := s2.world[k]] == s.world[k := s2.world[k]];
  }

  /** No task needs a third call. */
  lemma MicroEnds(sub: bool, f: Fate, g: Fate, a: Action, c: Cell)
    ensures var (c1, p1) := Micro(sub, f, a, Start, c);
            p1.More? ==> Micro(sub, g, a, p1.pc, c1).1.Finished?
  {
  }
}
