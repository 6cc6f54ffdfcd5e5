/** Where a run leaves every key, and what an undisturbed run makes of it. */
module Settling {
  import opened Prelude
  import opened Objects
  import opened ApiServer
  import opened Tasks
  import opened Locality

  ghost predicate Untouched(w: World, v: World, ks: set<Key>) {
    forall k :: k in ks ==> At(v, k) == At(w, k)
  }

  /** In v every task attempted has done its own work on its key's cell in w; keys below a failure are as in w. */
  ghost predicate Reached(x: Outside, w: World, v: World, ts: seq<Task>)
    decreases ts
  {
    ts == [] || (ReachedOne(x, w, v, ts[0]) && Reached(x, w, v, ts[1..]))
  }

  ghost predicate ReachedOne(x: Outside, w: World, v: World, t: Task)
    decreases t
  {
    var d := Do(x, t.key, t.act, At(w, t.key));
    && At(v, t.key) == d.0
    && (if d.1.Ok? then Reached(x, w, v, t.next) else Untouched(w, v, Foot(t.next)))
  }

  lemma {:induction false} FootHead(ts: seq<Task>)
    requires ts != []
    ensures Foot([ts[0]]) == {ts[0].key} + Foot(ts[0].next)
    ensures Foot(ts) == Foot([ts[0]]) + Foot(ts[1..])
  {
    assert [ts[0]][1..] == [];
    assert Foot([]) == {};
  }

  /** Reached looks at the two stores on the forest's own keys only. */
  lemma {:induction false} ReachedFrame(x: Outside, w: World, v: World, w': World, v': World, ts: seq<Task>)
    requires Reached(x, w, v, ts)
    requires Untouched(w, w', Foot(ts)) && Untouched(v, v', Foot(ts))
    ensures Reached(x, w', v', ts)
    decreases ts
  {
    hide Do;
    if ts != [] {
      FootHead(ts);
      var t := ts[0];
      if Do(x, t.key, t.act, At(w, t.key)).1.Ok? {
        ReachedFrame(x, w, v, w', v', t.next);
      }
      ReachedFrame(x, w, v, w', v', ts[1..]);
    }
  }

  lemma VisitReaches(x: Outside, w: World, t: Task)
    requires Unique([t])
    ensures ReachedOne(x, w, Visit(x, w, t).0, t)
    decreases t
  {
    hide Do, Run;
    assert [t][1..] == [] && [t][..1] == [t];
    var d := Do(x, t.key, t.act, At(w, t.key));
    var w1 := w[t.key := d.0];
    if d.1.Ok? {
      RunReaches(x, w1, t.next);
      var v := Run(x, w1, t.next).0;
      RunWrites(x, w1, t.next);
      ReachedFrame(x, w1, v, w, v, t.next);
    }
  }

  /** With distinct keys, the run leaves each key where its own task takes it. */
  lemma {:induction false} RunReaches(x: Outside, w: World, ts: seq<Task>)
    requires Unique(ts)
    ensures Reached(x, w, Run(x, w, ts).0, ts)
    decreases ts
  {
    hide Do, Visit;
    if ts != [] {
      var t := ts[0];
      assert ts[..1] == [t];
      FootHead(ts);
      UniqueAppend([t], ts[1..]);
      assert ts == [t] + ts[1..];
      var (w1, n) := Visit(x, w, t);
      VisitReaches(x, w, t);
      VisitWrites(x, w, t);
      RunReaches(x, w1, ts[1..]);
      RunWrites(x, w1, ts[1..]);
      var v := Run(x, w1, ts[1..]).0;
      ReachedFrame(x, w1, v, w, v, ts[1..]);
      assert [t][1..] == [];
      assert Reached(x, w, w1, [t]);
      ReachedFrame(x, w, w1, w, v, [t]);
    }
  }

  lemma {:induction false} ReachedAt(x: Outside, w: World, v: World, ts: seq<Task>, i: nat)
    requires Reached(x, w, v, ts) && i < |ts|
    ensures ReachedOne(x, w, v, ts[i])
    decreases ts
  {
    if i > 0 {
      ReachedAt(x, w, v, ts[1..], i - 1);
    }
  }

  // ----- Undisturbed runs -----

  /** The call does not fail and nobody else writes. Admission may still stamp annotations on what is created. */
  predicate Calm(f: Fate) {
    f.noise.None? && f.verdict.Proceed? && !f.barred
  }

  /** The calls on k that lead from cell c to cell d are calm. */
  ghost predicate CalmCalls(x: Outside, k: Key, c: Cell, d: Cell) {
    forall n: nat :: c.calls <= n < d.calls ==> Calm(x.fate(k, n))
  }

  /** Every call made between the stores w and v is calm; nothing is said of calls before or after. */
  ghost predicate CalmBetween(x: Outside, w: World, v: World) {
    forall k :: CalmCalls(x, k, At(w, k), At(v, k))
  }

  /** A task makes one or two calls. */
  lemma DoCalls(x: Outside, k: Key, a: Action, c: Cell)
    ensures c.calls < Do(x, k, a, c).0.calls <= c.calls + 2
  {
  }

  /** What a task's goal says of its key, given the object that was there before. */
  ghost predicate Met(a: Action, before: Option<Obj>, after: Option<Obj>) {
    match a
    case Upsert(o, carry) =>
      && after.Some?
      && after.value.spec == o.spec
      && after.value.labels == o.labels
      && (carry && before.Some? ==>
            after.value.status == before.value.status && after.value.annotations == before.value.annotations)
    case Remove => after.None?
    case RemoveIfSeen => after.None?
    case Ensure(o) =>
      && after.Some?
      && (if before.Some? then after == before else after.value.spec == o.spec && after.value.labels == o.labels)
    case Require => after == before
  }

  /** What success says of the key, however other calls fail and whoever else writes. */
  ghost predicate Left(a: Action, after: Option<Obj>) {
    match a
    case Upsert(o, _) => after.Some? && after.value.spec == o.spec && after.value.labels == o.labels
    case Remove => after.None?
    case RemoveIfSeen => after.None?
    case Ensure(_) => after.Some?
    case Require => after.Some?
  }

  /** A task that succeeds leaves what it is for. */
  lemma OkLeaves(x: Outside, k: Key, a: Action, c: Cell)
    ensures Do(x, k, a, c).1.Ok? ==> Left(a, Do(x, k, a, c).0.obj)
  {
  }

  /** Nobody else writes to k during the calls that lead from cell c to cell d; they may still fail. */
  ghost predicate UndisturbedCalls(x: Outside, k: Key, c: Cell, d: Cell) {
    forall n: nat :: c.calls <= n < d.calls ==> x.fate(k, n).noise.None?
  }

  /** Where nobody else writes to the key meanwhile, a task that succeeds meets its goal. */
  lemma OkMeets(x: Outside, k: Key, a: Action, c: Cell)
    requires UndisturbedCalls(x, k, c, Do(x, k, a, c).0)
    ensures Do(x, k, a, c).1.Ok? ==> Met(a, c.obj, Do(x, k, a, c).0.obj)
  {
    var (c1, p1) := Micro(x.subresource, Next(x, k, c), a, Start, c);
    assert c1.calls == c.calls + 1;
    assert Next(x, k, c).noise.None?;
    if p1.More? {
      assert Next(x, k, c1).noise.None?;
    }
  }

  /** A calm task succeeds and meets its goal, unless it requires an object that is not there. */
  lemma CalmDo(x: Outside, k: Key, a: Action, c: Cell)
    requires CalmCalls(x, k, c, Do(x, k, a, c).0)
    ensures var d := Do(x, k, a, c);
            && Met(a, c.obj, d.0.obj)
            && d.0.calls > c.calls
            && (d.1.Ok? <==> !a.Require? || c.obj.Some?)
            && (d.1.Ok? ==> d.1 == Ok(if a.Upsert? then d.0.obj else None))
            && (d.1.Err? ==> d.1 == Err(Getting, NotFound))
  {
    var (c1, p1) := Micro(x.subresource, Next(x, k, c), a, Start, c);
    assert c1.calls == c.calls + 1;
    assert Calm(Next(x, k, c));
    if p1.More? {
      assert Calm(Next(x, k, c1));
    }
  }

  /**
   An object about to be created by a task that will not carry its annotations over must not be
   stamped, or the next update drops the stamp.
   */
  ghost predicate KeepsAnnotations(x: Outside, k: Key, a: Action, c: Cell) {
    a.Upsert? && !a.carry && c.obj.None? ==>
      a.desired.annotations + x.fate(k, c.calls + 1).stamp == a.desired.annotations
  }

  /** The same outcome as far as anyone reports it: the same failure, or success with the same status. */
  ghost predicate SameVoice(o: Outcome, p: Outcome) {
    if o.Err? then o == p
    else p.Ok? && (o.obj.Some? <==> p.obj.Some?) && (o.obj.Some? ==> o.obj.value.status == p.obj.value.status)
  }

  /** Doing a calm task again reports the same, and leaves the object as it is exactly if no stamp is at stake. */
  lemma CalmDoTwice(x: Outside, k: Key, a: Action, c: Cell)
    requires CalmCalls(x, k, c, Do(x, k, a, Do(x, k, a, c).0).0)
    ensures var d := Do(x, k, a, c);
            var e := Do(x, k, a, d.0);
            && (e.0.obj == d.0.obj <==> KeepsAnnotations(x, k, a, c))
            && SameVoice(d.1, e.1)
  {
    hide Do;
    var d := Do(x, k, a, c).0;
    DoCalls(x, k, a, c);
    DoCalls(x, k, a, d);
    CalmDo(x, k, a, c);
    CalmDo(x, k, a, d);
    if a.Upsert? {
      CalmUpsert(x, k, a, c);
      CalmUpsert(x, k, a, d);
    }
  }

  /** The exact object a calm upsert leaves. */
  lemma CalmUpsert(x: Outside, k: Key, a: Action, c: Cell)
    requires a.Upsert? && CalmCalls(x, k, c, Do(x, k, a, c).0)
    ensures Do(x, k, a, c).0.obj == Some(
              if c.obj.None? then
                a.desired.(annotations := a.desired.annotations + x.fate(k, c.calls + 1).stamp,
                           status := if x.subresource then BLANK_STATUS else a.desired.status)
              else
                Revised(a, c.obj.value).(
                  status := if x.subresource then c.obj.value.status else Revised(a, c.obj.value).status))
  {
    var (c1, p1) := Micro(x.subresource, Next(x, k, c), a, Start, c);
    assert c1.calls == c.calls + 1;
    assert Calm(Next(x, k, c)) && Calm(Next(x, k, c1));
  }

  // ----- Repeating a run -----

  /** Nodes that tell the same story: same voices, same shape. */
  ghost predicate Alike(ns: seq<Node>, ms: seq<Node>)
    decreases ns
  {
    |ns| == |ms| && forall i :: 0 <= i < |ns| ==> AlikeOne(ns[i], ms[i])
  }

  ghost predicate AlikeOne(n: Node, m: Node)
    decreases n
  {
    SameVoice(n.outcome, m.outcome) && Alike(n.kids, m.kids)
  }

  /** No task attempted from w creates an object whose stamp a later update would drop. */
  ghost predicate Unstamped(x: Outside, w: World, ts: seq<Task>)
    decreases ts
  {
    ts == [] || (UnstampedOne(x, w, ts[0]) && Unstamped(x, w, ts[1..]))
  }

  ghost predicate UnstampedOne(x: Outside, w: World, t: Task)
    decreases t
  {
    && KeepsAnnotations(x, t.key, t.act, At(w, t.key))
    && (Do(x, t.key, t.act, At(w, t.key)).1.Ok? ==> Unstamped(x, w, t.next))
  }

  /**
   A forest repeated on the store v it reached tells the same story, and leaves every object as it
   is exactly if no stamp is at stake.
   */
  lemma {:induction false} RepeatForest(x: Outside, w: World, v: World, u: World, ts: seq<Task>)
    requires CalmBetween(x, w, v) && CalmBetween(x, v, u)
    requires Reached(x, w, v, ts) && Reached(x, v, u, ts)
    ensures Alike(Parallel(x, w, ts), Parallel(x, v, ts))
    ensures Unstamped(x, w, ts) <==> forall k :: k in Foot(ts) ==> At(u, k).obj == At(v, k).obj
    decreases ts
  {
    hide Do, Branch, Alike, AlikeOne, UnstampedOne, ReachedOne, CalmBetween;
    if ts == [] {
      AlikeNothing();
    } else {
      FootHead(ts);
      RepeatTask(x, w, v, u, ts[0]);
      RepeatForest(x, w, v, u, ts[1..]);
      AlikeMore(Branch(x, w, ts[0]), Branch(x, v, ts[0]), Parallel(x, w, ts[1..]), Parallel(x, v, ts[1..]));
    }
  }

  lemma AlikeNothing()
    ensures Alike([], [])
  {
  }

  lemma AlikeMore(n: Node, m: Node, ns: seq<Node>, ms: seq<Node>)
    requires AlikeOne(n, m) && Alike(ns, ms)
    ensures Alike([n] + ns, [m] + ms)
  {
  }

  lemma {:induction false} RepeatTask(x: Outside, w: World, v: World, u: World, t: Task)
    requires CalmBetween(x, w, v) && CalmBetween(x, v, u)
    requires ReachedOne(x, w, v, t) && ReachedOne(x, v, u, t)
    ensures AlikeOne(Branch(x, w, t), Branch(x, v, t))
    ensures UnstampedOne(x, w, t) <==> forall k :: k in {t.key} + Foot(t.next) ==> At(u, k).obj == At(v, k).obj
    decreases t
  {
    hide Do, Parallel, KeepsAnnotations;
    assert CalmCalls(x, t.key, At(w, t.key), At(v, t.key)) && CalmCalls(x, t.key, At(v, t.key), At(u, t.key));
    CalmDo(x, t.key, t.act, At(w, t.key));
    CalmDo(x, t.key, t.act, At(v, t.key));
    CalmDoTwice(x, t.key, t.act, At(w, t.key));
    if Do(x, t.key, t.act, At(w, t.key)).1.Ok? {
      RepeatForest(x, w, v, u, t.next);
    }
  }
}
