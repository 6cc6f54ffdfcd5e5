/**
 The operator's work as a forest of tasks. A task drives one key to a goal with at most two API
 calls; its subtasks are attempted, in order, only if it succeeds, and siblings are attempted
 whatever becomes of each other. `Run` is the sequential meaning of a forest.
 */
module Tasks {
  import opened Prelude
  import opened Objects
  import opened ApiServer

  /**
   Upsert: get, then create or update; `carry` takes status and annotations over from the object read.
   Remove: delete, absence being success. RemoveIfSeen: the same, after a get that found it.
   Ensure: get, then create, losing the race to another creator being success.
   Require: get only.
   */
  datatype Action =
    | Upsert(desired: Obj, carry: bool)
    | Remove
    | RemoveIfSeen
    | Ensure(desired: Obj)
    | Require

  datatype Task = Task(key: Key, act: Action, next: seq<Task>)

  datatype Stage = Getting | Creating | Updating | Deleting
  datatype Outcome = Ok(obj: Option<Obj>) | Err(stage: Stage, cause: ApiError)

  /** Between the calls of one task: nothing known yet, seen absent, or holding the object read. */
  datatype Pc = Start | Absent | Seen(stored: Stored)
  datatype Progress = More(pc: Pc) | Finished(outcome: Outcome)

  /** The object an upsert submits as an update of what it read. */
  function Revised(a: Action, read: Obj): Obj
    requires a.Upsert?
  {
    if a.carry then a.desired.(status := read.status, annotations := read.annotations) else a.desired
  }

  function Look(a: Action, f: Fate, c: Cell): (Cell, Progress) {
    var (s, r) := GetCell(f, c);
    match r
    case Answer(o) => (s, if a.Ensure? || a.Require? then Finished(Ok(None)) else More(Seen(o)))
    case Failed(e) =>
      (s, if e != NotFound || a.Require? then Finished(Err(Getting, e))
          else if a.RemoveIfSeen? then Finished(Ok(None))
          else More(Absent))
  }

  function Erase(f: Fate, c: Cell): (Cell, Progress) {
    var (s, e) := DeleteCell(f, c);
    (s, Finished(if e.None? || e.value == NotFound then Ok(None) else Err(Deleting, e.value)))
  }

  function Reported(stage: Stage, r: Reply): Outcome {
    match r
    case Answer(s) => Ok(Some(s.obj))
    case Failed(e) => Err(stage, e)
  }

  /** One API call of a task, and where the task stands after it. */
  function Micro(sub: bool, f: Fate, a: Action, pc: Pc, c: Cell): (r: (Cell, Progress))
    ensures pc != Start ==> (a.Upsert? ==> r.1.Finished?)
  {
    match a
    case Remove => Erase(f, c)
    case Require => Look(a, f, c)
    case RemoveIfSeen => if pc.Seen? then Erase(f, c) else Look(a, f, c)
    case Ensure(o) =>
      if pc.Absent? then
        var (s, r) := CreateCell(sub, f, c, o);
        (s, Finished(if r == Failed(AlreadyExists) || r.Answer? then Ok(None) else Err(Creating, r.error)))
      else Look(a, f, c)
    case Upsert(o, _) =>
      match pc
      case Start => Look(a, f, c)
      case Absent => var (s, r) := CreateCell(sub, f, c, o); (s, Finished(Reported(Creating, r)))
      case Seen(was) =>
        var (s, r) := UpdateCell(sub, f, c, Revised(a, was.obj), Some(was.version));
        (s, Finished(Reported(Updating, r)))
  }

  /** A whole task on its own cell: one call, and a second one if the first calls for it. */
  function Do(x: Outside, k: Key, a: Action, c: Cell): (Cell, Outcome) {
    var (c1, p1) := Micro(x.subresource, Next(x, k, c), a, Start, c);
    match p1
    case Finished(out) => (c1, out)
    case More(pc) =>
      var (c2, p2) := Micro(x.subresource, Next(x, k, c1), a, pc, c1);
      (c2, p2.outcome)
  }

  /** A failure names the call that failed, and carries what that call answered. */
  lemma StageMeans(sub: bool, f: Fate, a: Action, pc: Pc, c: Cell, stage: Stage, cause: ApiError)
    requires Micro(sub, f, a, pc, c).1 == Finished(Err(stage, cause))
    ensures match stage
            case Getting => GetCell(f, c).1 == Failed(cause)
            case Creating =>
              && pc.Absent? && (a.Upsert? || a.Ensure?)
              && CreateCell(sub, f, c, a.desired).1 == Failed(cause)
            case Updating =>
              && pc.Seen? && a.Upsert?
              && UpdateCell(sub, f, c, Revised(a, pc.stored.obj), Some(pc.stored.version)).1 == Failed(cause)
            case Deleting => (a.Remove? || (a.RemoveIfSeen? && pc.Seen?)) && DeleteCell(f, c).1 == Some(cause)
  {
  }

  /** What became of a task and, below it, of the subtasks attempted. */
  datatype Node = Node(key: Key, cell: Cell, outcome: Outcome, kids: seq<Node>)

  /** One task and what hangs below it. */
  function Visit(x: Outside, w: World, t: Task): (World, Node)
    decreases t
  {
    var (cell, out) := Do(x, t.key, t.act, At(w, t.key));
    var w1 := w[t.key := cell];
    if out.Err? then (w1, Node(t.key, cell, out, []))
    else
      var (w2, kids) := Run(x, w1, t.next);
      (w2, Node(t.key, cell, out, kids))
  }

  function Run(x: Outside, w: World, ts: seq<Task>): (r: (World, seq<Node>))
    ensures |r.1| == |ts|
    decreases ts
  {
    if ts == [] then (w, [])
    else
      var (w1, n) := Visit(x, w, ts[0]);
      var (w2, rest) := Run(x, w1, ts[1..]);
      (w2, [n] + rest)
  }

  lemma {:induction false} RunAppend(x: Outside, w: World, ts: seq<Task>, us: seq<Task>)
    ensures var a := Run(x, w, ts);
            var b := Run(x, a.0, us);
            Run(x, w, ts + us) == (b.0, a.1 + b.1)
    decreases ts
  {
    hide Visit;
    if ts == [] {
      assert ts + us == us;
      assert [] + Run(x, w, us).1 == Run(x, w, us).1;
    } else {
      var (w1, n) := Visit(x, w, ts[0]);
      assert (ts + us)[1..] == ts[1..] + us;
      RunAppend(x, w1, ts[1..], us);
      var (w2, rest) := Run(x, w1, ts[1..]);
      var b := Run(x, w2, us);
      assert [n] + (rest + b.1) == ([n] + rest) + b.1;
    }
  }

  /** Every key a forest can address. */
  function Foot(ts: seq<Task>): set<Key> {
    if ts == [] then {} else {ts[0].key} + Foot(ts[0].next) + Foot(ts[1..])
  }

  lemma FootAppend(ts: seq<Task>, us: seq<Task>)
    ensures Foot(ts + us) == Foot(ts) + Foot(us)
  {
    if ts == [] {
      assert ts + us == us;
    } else {
      assert (ts + us)[1..] == ts[1..] + us;
      FootAppend(ts[1..], us);
    }
  }

  lemma FootMember(ts: seq<Task>, i: nat)
    requires i < |ts|
    ensures Foot([ts[i]]) <= Foot(ts)
  {
    assert ts == ts[..i] + ([ts[i]] + ts[i + 1..]);
    FootAppend(ts[..i], [ts[i]] + ts[i + 1..]);
    FootAppend([ts[i]], ts[i + 1..]);
  }

  /** The cells that a run's nodes wrote, the later write winning. */
  function Cells(ns: seq<Node>): World {
    if ns == [] then map[] else map[ns[0].key := ns[0].cell] + Cells(ns[0].kids) + Cells(ns[1..])
  }

  lemma {:induction false} CellsAppend(ns: seq<Node>, ms: seq<Node>)
    ensures Cells(ns + ms) == Cells(ns) + Cells(ms)
  {
    if ns == [] {
      assert ns + ms == ms;
    } else {
      assert (ns + ms)[1..] == ns[1..] + ms;
      CellsAppend(ns[1..], ms);
      UnionAssociates(map[ns[0].key := ns[0].cell] + Cells(ns[0].kids), Cells(ns[1..]), Cells(ms));
    }
  }

  /** A run changes the store exactly at the keys its nodes name, all of them the forest's own. */
  lemma {:induction false} RunWrites(x: Outside, w: World, ts: seq<Task>)
    ensures var r := Run(x, w, ts);
            r.0 == w + Cells(r.1) && Cells(r.1).Keys <= Foot(ts)
    decreases ts
  {
    hide Visit;
    if ts != [] {
      var (w1, n) := Visit(x, w, ts[0]);
      VisitWrites(x, w, ts[0]);
      RunWrites(x, w1, ts[1..]);
      var (w2, rest) := Run(x, w1, ts[1..]);
      assert ([n] + rest)[1..] == rest;
      UnionAssociates(w, Cells([n]), Cells(rest));
      CellsAppend([n], rest);
    }
  }

  lemma {:induction false} VisitWrites(x: Outside, w: World, t: Task)
    ensures var r := Visit(x, w, t);
            r.0 == w + Cells([r.1]) && Cells([r.1]).Keys <= Foot([t])
    decreases t
  {
    hide Do, Run;
    var (cell, out) := Do(x, t.key, t.act, At(w, t.key));
    var n := Visit(x, w, t).1;
    assert Cells([n]) == map[t.key := cell] + Cells(n.kids);
    assert Foot([t]) == {t.key} + Foot(t.next);
    if out.Ok? {
      RunWrites(x, w[t.key := cell], t.next);
    }
  }
}
