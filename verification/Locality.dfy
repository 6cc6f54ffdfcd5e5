/**
 Where the keys of a forest are pairwise distinct, its sequential run is the same as doing every
 task on its own cell of the initial store: no task can see another one's writes. Isolation,
 independence of order and convergence all rest on this.
 */
module Locality {
  import opened Prelude
  import opened Objects
  import opened ApiServer
  import opened Tasks

  /** No key is addressed by two tasks of the forest. */
  ghost predicate Unique(ts: seq<Task>) {
    ts == [] ||
    (&& ts[0].key !in Foot(ts[0].next)
     && Unique(ts[0].next)
     && Foot(ts[..1]) !! Foot(ts[1..])
     && Unique(ts[1..]))
  }

  lemma {:induction false} UniqueAppend(ts: seq<Task>, us: seq<Task>)
    ensures Unique(ts + us) <==> Unique(ts) && Unique(us) && Foot(ts) !! Foot(us)
    decreases ts
  {
    if ts == [] {
      assert ts + us == us;
    } else {
      assert (ts + us)[1..] == ts[1..] + us;
      assert (ts + us)[..1] == ts[..1];
      UniqueAppend(ts[1..], us);
      FootAppend(ts[1..], us);
      assert ts == ts[..1] + ts[1..];
      FootAppend(ts[..1], ts[1..]);
    }
  }

  /** The task on its own cell of w, and its subtasks likewise if it succeeds. */
  function Branch(x: Outside, w: World, t: Task): Node
    decreases t
  {
    var (cell, out) := Do(x, t.key, t.act, At(w, t.key));
    Node(t.key, cell, out, if out.Ok? then Parallel(x, w, t.next) else [])
  }

  function Parallel(x: Outside, w: World, ts: seq<Task>): (r: seq<Node>)
    ensures |r| == |ts|
    decreases ts
  {
    if ts == [] then [] else [Branch(x, w, ts[0])] + Parallel(x, w, ts[1..])
  }

  lemma {:induction false} ParallelAppend(x: Outside, w: World, ts: seq<Task>, us: seq<Task>)
    ensures Parallel(x, w, ts + us) == Parallel(x, w, ts) + Parallel(x, w, us)
    decreases ts
  {
    if ts == [] {
      assert ts + us == us;
    } else {
      assert (ts + us)[1..] == ts[1..] + us;
      ParallelAppend(x, w, ts[1..], us);
    }
  }

  lemma ParallelOne(x: Outside, w: World, t: Task)
    ensures Parallel(x, w, [t]) == [Branch(x, w, t)]
  {
    assert [t][1..] == [];
  }

  lemma {:induction false} ParallelAt(x: Outside, w: World, ts: seq<Task>, i: nat)
    requires i < |ts|
    ensures Parallel(x, w, ts)[i] == Branch(x, w, ts[i])
    decreases ts
  {
    if i > 0 {
      ParallelAt(x, w, ts[1..], i - 1);
    }
  }

  /** Two settings that a set of keys cannot tell apart. */
  ghost predicate AgreeOn(ks: set<Key>, x: Outside, w: World, y: Outside, v: World) {
    && x.subresource == y.subresource
    && (forall k :: k in ks ==> At(w, k) == At(v, k))
    && (forall k, n: nat :: k in ks ==> x.fate(k, n) == y.fate(k, n))
  }

  lemma DoLocal(x: Outside, y: Outside, k: Key, a: Action, c: Cell)
    requires x.subresource == y.subresource && forall n: nat :: x.fate(k, n) == y.fate(k, n)
    ensures Do(x, k, a, c) == Do(y, k, a, c)
  {
    hide Micro;
    assert Next(x, k, c) == Next(y, k, c);
    var (c1, p1) := Micro(x.subresource, Next(x, k, c), a, Start, c);
    assert Next(x, k, c1) == Next(y, k, c1);
  }

  /** What a branch does depends on nothing but its own keys. */
  lemma {:induction false} BranchLocal(x: Outside, w: World, y: Outside, v: World, t: Task)
    requires AgreeOn(Foot([t]), x, w, y, v)
    ensures Branch(x, w, t) == Branch(y, v, t)
    decreases t
  {
    hide Do, Parallel;
    DoLocal(x, y, t.key, t.act, At(w, t.key));
    assert Foot([t]) == {t.key} + Foot(t.next);
    ParallelLocal(x, w, y, v, t.next);
  }

  lemma {:induction false} ParallelLocal(x: Outside, w: World, y: Outside, v: World, ts: seq<Task>)
    requires AgreeOn(Foot(ts), x, w, y, v)
    ensures Parallel(x, w, ts) == Parallel(y, v, ts)
    decreases ts
  {
    hide Branch;
    if ts != [] {
      assert ts == ts[..1] + ts[1..];
      FootAppend(ts[..1], ts[1..]);
      assert ts[..1] == [ts[0]];
      BranchLocal(x, w, y, v, ts[0]);
      ParallelLocal(x, w, y, v, ts[1..]);
    }
  }

  lemma {:induction false} VisitIsBranch(x: Outside, w: World, t: Task)
    requires Unique([t])
    ensures Visit(x, w, t).1 == Branch(x, w, t)
    decreases t
  {
    hide Do;
    var (cell, out) := Do(x, t.key, t.act, At(w, t.key));
    if out.Ok? {
      RunIsParallel(x, w[t.key := cell], t.next);
      ParallelLocal(x, w[t.key := cell], x, w, t.next);
    }
  }

  /** The sequential run of a forest with distinct keys does exactly what its tasks do on their own. */
  lemma {:induction false} RunIsParallel(x: Outside, w: World, ts: seq<Task>)
    requires Unique(ts)
    ensures Run(x, w, ts).1 == Parallel(x, w, ts)
    ensures Run(x, w, ts).0 == w + Cells(Parallel(x, w, ts))
    decreases ts
  {
    hide Do;
    if ts != [] {
      assert ts[..1] == [ts[0]];
      assert ts == ts[..1] + ts[1..];
      UniqueAppend(ts[..1], ts[1..]);
      VisitIsBranch(x, w, ts[0]);
      VisitWrites(x, w, ts[0]);
      var (w1, n) := Visit(x, w, ts[0]);
      RunIsParallel(x, w1, ts[1..]);
      ParallelLocal(x, w1, x, w, ts[1..]);
    }
    RunWrites(x, w, ts);
  }

  /** The written cells of a forest do not depend on the order of its trees. */
  lemma {:induction false} OrderIrrelevant(x: Outside, w: World, ts: seq<Task>, us: seq<Task>)
    requires Unique(ts) && multiset(ts) == multiset(us)
    ensures Unique(us) && Foot(us) == Foot(ts)
    ensures Cells(Parallel(x, w, us)) == Cells(Parallel(x, w, ts))
    decreases |ts|
  {
    if ts == [] {
      assert us == [];
    } else {
      var i := SplitAtFirst(ts, us);
      var t, a, b := [ts[0]], us[..i], us[i + 1..];
      assert ts == t + ts[1..] && ts[..1] == t;
      UniqueAppend(t, ts[1..]);
      OrderIrrelevant(x, w, ts[1..], a + b);
      MoveToFront(x, w, a, t, b);
      FootAppend(t, ts[1..]);
      FootAppend(t, a + b);
      UniqueAppend(t, a + b);
      ParallelAppend(x, w, t, ts[1..]);
      ParallelAppend(x, w, t, a + b);
      CellsAppend(Parallel(x, w, t), Parallel(x, w, ts[1..]));
      CellsAppend(Parallel(x, w, t), Parallel(x, w, a + b));
    }
  }

  lemma MoveToFront(x: Outside, w: World, a: seq<Task>, t: seq<Task>, b: seq<Task>)
    requires Unique(a + b) && Unique(t) && Foot(t) !! Foot(a + b)
    ensures Unique(a + t + b) && Foot(a + t + b) == Foot(t + (a + b))
    ensures Cells(Parallel(x, w, a + t + b)) == Cells(Parallel(x, w, t + (a + b)))
  {
    hide Run, Unique, Foot, Cells, Parallel;
    UniqueAppend(a, b);
    FootAppend(a, b);
    UniqueAppend(a, t);
    FootAppend(a, t);
    UniqueAppend(a + t, b);
    FootAppend(a + t, b);
    FootAppend(t, a + b);
    ParallelAppend(x, w, a, t);
    ParallelAppend(x, w, a + t, b);
    ParallelAppend(x, w, a, b);
    ParallelAppend(x, w, t, a + b);
    var pa, pt, pb := Parallel(x, w, a), Parallel(x, w, t), Parallel(x, w, b);
    CellsAppend(pa, pt);
    CellsAppend(pa + pt, pb);
    CellsAppend(pa, pb);
    CellsAppend(pt, pa + pb);
    ParallelFoot(x, w, a);
    ParallelFoot(x, w, t);
    UnionCommutes(Cells(pa), Cells(pt), Cells(pb));
  }

  lemma UnionCommutes(a: World, t: World, b: World)
    requires a.Keys !! t.Keys
    ensures a + t + b == t + (a + b)
  {
  }

  lemma ParallelFoot(x: Outside, w: World, ts: seq<Task>)
    requires Unique(ts)
    ensures Cells(Parallel(x, w, ts)).Keys <= Foot(ts)
  {
    RunWrites(x, w, ts);
    RunIsParallel(x, w, ts);
  }

  /** After the run, a tree's own keys hold what the tree alone makes of the initial store. */
  lemma TreeAlone(x: Outside, w: World, ts: seq<Task>, i: nat, k: Key)
    requires Unique(ts) && i < |ts| && k in Foot([ts[i]])
    ensures At(Run(x, w, ts).0, k) == At(w + Cells([Branch(x, w, ts[i])]), k)
  {
    hide Run, Unique, Foot, Cells;
    var a, t, b := ts[..i], [ts[i]], ts[i + 1..];
    assert ts == a + (t + b);
    UniqueAppend(a, t + b);
    FootAppend(t, b);
    UniqueAppend(t, b);
    ParallelAppend(x, w, a, t + b);
    ParallelAppend(x, w, t, b);
    var pa, pt, pb := Parallel(x, w, a), Parallel(x, w, t), Parallel(x, w, b);
    CellsAppend(pa, pt + pb);
    CellsAppend(pt, pb);
    ParallelFoot(x, w, a);
    ParallelFoot(x, w, b);
    RunIsParallel(x, w, ts);
    assert Parallel(x, w, t) == [Branch(x, w, ts[i])];
  }
}
