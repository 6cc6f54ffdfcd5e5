/**
 The object store behind the Kubernetes API, one cell per key.

 A cell counts the calls that addressed it and the writes it took. The write count is the
 object's resourceVersion: clients only compare versions of one key for equality, so counting
 per key gives every call the outcome a cluster-wide counter would give it.
 */
module ApiServer {
  import opened Prelude
  import opened Objects

  datatype ApiError = NotFound | AlreadyExists | Conflict | Other(message: string)

  /** What becomes of one call: answered, refused without effect, or carried out with the reply lost. */
  datatype Verdict = Proceed | Reject(message: string) | LostReply(message: string)

  /**
   Everything outside the operator's control around one call: what another writer does to the
   object just before it (None: nothing; Some(o): the object becomes o), the annotations that
   admission adds if the call creates an object, whether creating is barred because the object's
   namespace is missing or its kind is not served, and the verdict.
   */
  datatype Fate = Fate(noise: Option<Option<Obj>>, stamp: Labels, barred: bool, verdict: Verdict)

  datatype Stored = Stored(version: nat, obj: Obj)
  datatype Reply = Answer(stored: Stored) | Failed(error: ApiError)

  datatype Cell = Cell(calls: nat, version: nat, obj: Option<Obj>)
  type World = map<Key, Cell>

  const EMPTY_CELL := Cell(0, 0, None)

  /**
   The surroundings of a whole run. The n-th call addressing key k meets fate(k, n). With
   `subresource`, plain writes cannot touch status (a real API server); without it the
   submitted status is stored (the fake clientsets). `parse` stands for quantity parsing.
   */
  datatype Outside = Outside(
    fate: (Key, nat) -> Fate,
    subresource: bool,
    parse: string -> Option<Quantity>)

  function At(w: World, k: Key): Cell {
    if k in w then w[k] else EMPTY_CELL
  }

  /** The fate awaiting the next call on k. */
  function Next(x: Outside, k: Key, c: Cell): Fate {
    x.fate(k, c.calls)
  }

  /** The cell as the call finds it: counted, and with the other writer's change in place. */
  function Settle(f: Fate, c: Cell): Cell {
    match f.noise
    case None => c.(calls := c.calls + 1)
    case Some(o) => Cell(c.calls + 1, c.version + 1, o)
  }

  function Store(c: Cell, o: Option<Obj>): Cell {
    c.(version := c.version + 1, obj := o)
  }

  /** The reply to a call that the contract answers with r. */
  function Voiced(v: Verdict, r: Reply): Reply {
    match v
    case Proceed => r
    case Reject(m) => Failed(Other(m))
    case LostReply(m) => Failed(Other(m))
  }

  function GetCell(f: Fate, c: Cell): (Cell, Reply) {
    var s := Settle(f, c);
    (s, Voiced(f.verdict, if s.obj.None? then Failed(NotFound) else Answer(Stored(s.version, s.obj.value))))
  }

  function CreateCell(sub: bool, f: Fate, c: Cell, o: Obj): (Cell, Reply) {
    var s := Settle(f, c);
    if f.verdict.Reject? then (s, Failed(Other(f.verdict.message)))
    else if f.barred then (s, Voiced(f.verdict, Failed(NotFound)))
    else if s.obj.Some? then (s, Voiced(f.verdict, Failed(AlreadyExists)))
    else
      var kept := o.(annotations := o.annotations + f.stamp, status := if sub then BLANK_STATUS else o.status);
      var t := Store(s, Some(kept));
      (t, Voiced(f.verdict, Answer(Stored(t.version, kept))))
  }

  /** `version` None is an unconditional update. */
  function UpdateCell(sub: bool, f: Fate, c: Cell, o: Obj, version: Option<nat>): (Cell, Reply) {
    var s := Settle(f, c);
    if f.verdict.Reject? then (s, Failed(Other(f.verdict.message)))
    else if s.obj.None? then (s, Voiced(f.verdict, Failed(NotFound)))
    else if version.Some? && version.value != s.version then (s, Voiced(f.verdict, Failed(Conflict)))
    else
      var kept := o.(status := if sub then s.obj.value.status else o.status);
      var t := Store(s, Some(kept));
      (t, Voiced(f.verdict, Answer(Stored(t.version, kept))))
  }

  function DeleteCell(f: Fate, c: Cell): (Cell, Option<ApiError>) {
    var s := Settle(f, c);
    if f.verdict.Reject? then (s, Some(Other(f.verdict.message)))
    else if s.obj.None? then (s, Some(if f.verdict.Proceed? then NotFound else Other(f.verdict.message)))
    else (Store(s, None), if f.verdict.Proceed? then None else Some(Other(f.verdict.message)))
  }

  /** The API server as the operator's clients see it. */
  class Server {
    var world: World
    const outside: Outside

    constructor (outside: Outside, world: World)
      ensures this.outside == outside && this.world == world
    {
      this.outside := outside;
      this.world := world;
    }

    method Get(k: Key) returns (r: Reply)
      modifies this
      ensures var f := Next(outside, k, At(old(world), k));
              (world, r) == (old(world)[k := GetCell(f, At(old(world), k)).0], GetCell(f, At(old(world), k)).1)
    {
      var f := Next(outside, k, At(world, k));
      var (cell, reply) := GetCell(f, At(world, k));
      world := world[k := cell];
      r := reply;
    }

    method Create(k: Key, o: Obj) returns (r: Reply)
      modifies this
      ensures var c := CreateCell(outside.subresource, Next(outside, k, At(old(world), k)), At(old(world), k), o);
              world == old(world)[k := c.0] && r == c.1
    {
      var (cell, reply) := CreateCell(outside.subresource, Next(outside, k, At(world, k)), At(world, k), o);
      world := world[k := cell];
      r := reply;
    }

    method Update(k: Key, o: Obj, version: Option<nat>) returns (r: Reply)
      modifies this
      ensures var c := UpdateCell(outside.subresource, Next(outside, k, At(old(world), k)), At(old(world), k), o,
                                  version);
              world == old(world)[k := c.0] && r == c.1
    {
      var (cell, reply) := UpdateCell(outside.subresource, Next(outside, k, At(world, k)), At(world, k), o, version);
      world := world[k := cell];
      r := reply;
    }

    method Delete(k: Key) returns (error: Option<ApiError>)
      modifies this
      ensures var c := DeleteCell(Next(outside, k, At(old(world), k)), At(old(world), k));
              world == old(world)[k := c.0] && error == c.1
    {
      var (cell, reply) := DeleteCell(Next(outside, k, At(world, k)), At(world, k));
      world := world[k := cell];
      error := reply;
    }
  }
}
