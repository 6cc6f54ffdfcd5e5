/** One-time registration: the persisted cluster token, the startup sequence, and every crash in between. */
module Registration {
  import opened Prelude
  import opened Objects
  import opened ApiServer
  import opened Hydra

  const TOKEN_KEY := "cluster-token"

  function SecretObj(token: string): Obj {
    Fresh(SecretSpec(map[TOKEN_KEY := token]), map[])
  }

  /** The token an object holds; "" if it holds none. */
  function TokenIn(o: Obj): string {
    if o.spec.SecretSpec? && TOKEN_KEY in o.spec.data then o.spec.data[TOKEN_KEY] else ""
  }

  function Persisted(c: Cell): string {
    if c.obj.Some? then TokenIn(c.obj.value) else ""
  }

  // ----- The startup sequence as a machine -----

  /** Where an operator process is: not running, at one of the calls of the startup, or with its manager running. */
  datatype Phase = Down | Loading | Registering | Creating(token: string) | Updating(token: string) | Serving

  /** The Secret, the one operator process, its client's token, and every request ever sent. */
  datatype Life = Life(cell: Cell, phase: Phase, client: string, log: seq<Request>)

  /** The server's flavour and the configured registration token. */
  datatype Setup = Setup(subresource: bool, registrationToken: string)

  /** One step of the startup: `f` befalls an API call, `reply` a registration. Failing is exiting. */
  function Advance(cfg: Setup, s: Life, f: Fate, reply: Option<string>): Life {
    match s.phase
    case Loading =>
      var (c, r) := GetCell(f, s.cell);
      if r.Failed? && r.error != NotFound then Life(c, Down, "", s.log)
      else if r.Failed? || TokenIn(r.stored.obj) == "" then
        if cfg.registrationToken == "" then Life(c, Down, "", s.log) else s.(cell := c, phase := Registering)
      else Life(c, Serving, TokenIn(r.stored.obj), s.log)
    case Registering =>
      var log := s.log + [Request(None, Register(cfg.registrationToken))];
      if reply.None? then Life(s.cell, Down, "", log) else Life(s.cell, Creating(reply.value), reply.value, log)
    case Creating(t) =>
      var (c, r) := CreateCell(cfg.subresource, f, s.cell, SecretObj(t));
      if r.Answer? then s.(cell := c, phase := Serving)
      else if r.error == AlreadyExists then s.(cell := c, phase := Updating(t))
      else Life(c, Down, "", s.log)
    case Updating(t) =>
      var (c, r) := UpdateCell(cfg.subresource, f, s.cell, SecretObj(t), None);
      if r.Answer? then s.(cell := c, phase := Serving) else Life(c, Down, "", s.log)
    case _ => s
  }

  /** Boot: a process starts. Go: its startup takes a step. Serve: its manager sends a request. Crash: it dies. */
  datatype Move = Boot | Go(fate: Fate, reply: Option<string>) | Serve(payload: Payload) | Crash

  predicate Possible(s: Life, m: Move) {
    match m
    case Boot => s.phase.Down?
    case Go(f, _) => !s.phase.Down? && !s.phase.Serving? && f.noise.None?
    case Serve(p) => s.phase.Serving? && !p.Register?
    case Crash => true
  }

  function Moved(cfg: Setup, s: Life, m: Move): Life {
    match m
    case Boot => s.(phase := Loading, client := "")
    case Go(f, reply) => Advance(cfg, s, f, reply)
    case Serve(p) => s.(log := s.log + [Request(Some(s.client), p)])
    case Crash => s.(phase := Down, client := "")
  }

  ghost predicate Story(cfg: Setup, s: Life, ms: seq<Move>)
    decreases |ms|
  {
    ms == [] || (Possible(s, ms[0]) && Story(cfg, Moved(cfg, s, ms[0]), ms[1..]))
  }

  ghost function Told(cfg: Setup, s: Life, ms: seq<Move>): Life
    requires Story(cfg, s, ms)
    decreases |ms|
  {
    if ms == [] then s else Told(cfg, Moved(cfg, s, ms[0]), ms[1..])
  }

  // ----- The invariant -----

  /**
   Requests carry the persisted token; startup between load and save means that none is persisted;
   serving means that it is in use.
   */
  ghost predicate Sound(s: Life) {
    && (s.phase.Registering? || s.phase.Creating? || s.phase.Updating? ==> Persisted(s.cell) == "")
    && (s.phase.Creating? || s.phase.Updating? ==> s.client == s.phase.token)
    && (s.phase.Serving? ==> s.cell.obj.Some? && s.client == Persisted(s.cell))
    && (forall i :: 0 <= i < |s.log| && s.log[i].bearer.Some? && s.log[i].bearer.value != "" ==>
          s.log[i].bearer.value == Persisted(s.cell))
    && (forall i :: 0 <= i < |s.log| ==> (s.log[i].bearer.None? <==> s.log[i].payload.Register?))
  }

  /** With a token persisted, a step neither touches the Secret nor registers. */
  lemma MoveSound(cfg: Setup, s: Life, m: Move)
    requires Sound(s) && Possible(s, m)
    ensures Sound(Moved(cfg, s, m))
    ensures s.log <= Moved(cfg, s, m).log
    ensures Persisted(s.cell) != "" ==>
              && Moved(cfg, s, m).cell.obj == s.cell.obj
              && forall i :: |s.log| <= i < |Moved(cfg, s, m).log| ==> !Moved(cfg, s, m).log[i].payload.Register?
    ensures Moved(cfg, s, m).log != s.log && Moved(cfg, s, m).log[|s.log|].payload.Register? ==>
              s.phase.Registering? && Persisted(s.cell) == ""
  {
  }

  lemma {:induction false} StorySound(cfg: Setup, s: Life, ms: seq<Move>)
    requires Sound(s) && Story(cfg, s, ms)
    ensures Sound(Told(cfg, s, ms))
    ensures s.log <= Told(cfg, s, ms).log
    ensures Persisted(s.cell) != "" ==>
              && Told(cfg, s, ms).cell.obj == s.cell.obj
              && forall i :: |s.log| <= i < |Told(cfg, s, ms).log| ==> !Told(cfg, s, ms).log[i].payload.Register?
    decreases |ms|
  {
    hide Sound, Moved, Possible;
    if ms != [] {
      MoveSound(cfg, s, ms[0]);
      StorySound(cfg, Moved(cfg, s, ms[0]), ms[1..]);
    }
  }

  /** Before the first boot: nothing sent; the Secret may or may not be there. */
  predicate Unborn(s: Life) {
    s.phase == Down && s.client == "" && s.log == []
  }

  lemma {:induction false} StoryAppend(cfg: Setup, s: Life, ms: seq<Move>, ns: seq<Move>)
    requires Story(cfg, s, ms)
    ensures Story(cfg, s, ms + ns) <==> Story(cfg, Told(cfg, s, ms), ns)
    ensures Story(cfg, s, ms + ns) ==> Told(cfg, s, ms + ns) == Told(cfg, Told(cfg, s, ms), ns)
    decreases |ms|
  {
    hide Moved, Possible;
    if ms == [] {
      assert ms + ns == ns;
    } else {
      assert (ms + ns)[1..] == ms[1..] + ns;
      StoryAppend(cfg, Moved(cfg, s, ms[0]), ms[1..], ns);
    }
  }

  /**
   A persisted token ends registration. However often the operator boots and crashes, at whatever step: once
   a nonempty token is persisted the Secret never changes again and no registration is sent.
   */
  lemma RegistersOnce(cfg: Setup, s: Life, ms: seq<Move>, ns: seq<Move>)
    requires Unborn(s) && Story(cfg, s, ms) && Story(cfg, Told(cfg, s, ms), ns)
    ensures
      var t := Told(cfg, s, ms);
      && Story(cfg, s, ms + ns)
      && var u := Told(cfg, s, ms + ns);
         && t.log <= u.log
         && (Persisted(t.cell) != "" ==>
               && u.cell.obj == t.cell.obj
               && forall i :: |t.log| <= i < |u.log| ==> !u.log[i].payload.Register?)
  {
    hide Told, Story;
    StorySound(cfg, s, ms);
    StorySound(cfg, Told(cfg, s, ms), ns);
    StoryAppend(cfg, s, ms, ns);
  }

  /**
   In every reachable state: the manager runs only with the persisted token in its client, and
   every request ever sent is either a registration, which carries none, or carries the token that
   is persisted now (or none was issued to it: Hydra answered the registration with "").
   */
  lemma ServesWithPersistedToken(cfg: Setup, s: Life, ms: seq<Move>)
    requires Unborn(s) && Story(cfg, s, ms)
    ensures
      var t := Told(cfg, s, ms);
      && (t.phase.Serving? ==> t.cell.obj.Some? && t.client == Persisted(t.cell))
      && forall i :: 0 <= i < |t.log| ==>
           if t.log[i].payload.Register? then t.log[i].bearer == None
           else t.log[i].bearer.Some? && t.log[i].bearer.value in {"", Persisted(t.cell)}
  {
    StorySound(cfg, s, ms);
  }

  /** A registration is sent only by a process that found no token persisted, and none is persisted when it is sent. */
  lemma RegistersOnlyWhenEmpty(cfg: Setup, s: Life, ms: seq<Move>, m: Move)
    requires Unborn(s) && Story(cfg, s, ms) && Possible(Told(cfg, s, ms), m)
    ensures
      var t := Told(cfg, s, ms);
      var u := Moved(cfg, t, m);
      (exists i :: |t.log| <= i < |u.log| && u.log[i].payload.Register?) ==>
          t.phase == Registering && Persisted(t.cell) == ""
  {
    hide Told, Story;
    StorySound(cfg, s, ms);
    MoveSound(cfg, Told(cfg, s, ms), m);
  }

  // ----- Registering again -----

  predicate Registers(log: seq<Request>, n: nat) {
    exists i :: n <= i < |log| && log[i].payload.Register?
  }

  /** Without a registration token in the configuration, nothing registers. */
  lemma {:induction false} NoTokenNoRegistration(cfg: Setup, s: Life, ms: seq<Move>)
    requires cfg.registrationToken == "" && !s.phase.Registering? && Story(cfg, s, ms)
    ensures !Told(cfg, s, ms).phase.Registering?
    ensures s.log <= Told(cfg, s, ms).log && !Registers(Told(cfg, s, ms).log, |s.log|)
    decreases |ms|
  {
    hide GetCell, CreateCell, UpdateCell;
    if ms != [] {
      NoTokenNoRegistration(cfg, Moved(cfg, s, ms[0]), ms[1..]);
    }
  }

  /** Crash, boot, load, register. */
  function Again(): seq<Move> {
    [Crash, Boot, Go(Fate(None, map[], false, Proceed), None), Go(Fate(None, map[], false, Proceed), None)]
  }

  lemma AgainRegisters(cfg: Setup, s: Life)
    requires Persisted(s.cell) == "" && cfg.registrationToken != ""
    ensures Story(cfg, s, Again())
    ensures Told(cfg, s, Again()).log == s.log + [Request(None, Register(cfg.registrationToken))]
  {
    var ms := Again();
    var s1 := Moved(cfg, s, ms[0]);
    var s2 := Moved(cfg, s1, ms[1]);
    var s3 := Moved(cfg, s2, ms[2]);
    var s4 := Moved(cfg, s3, ms[3]);
    assert s3.phase == Registering;
    assert Possible(s, ms[0]) && Possible(s1, ms[1]) && Possible(s2, ms[2]) && Possible(s3, ms[3]);
    assert ms[1..][1..] == ms[2..] && ms[2..][1..] == ms[3..] && ms[3..][1..] == [];
    hide Moved, Possible;
    assert Story(cfg, s4, []) && Told(cfg, s4, []) == s4;
    assert Story(cfg, s3, ms[3..]) && Told(cfg, s3, ms[3..]) == s4;
    assert Story(cfg, s2, ms[2..]) && Told(cfg, s2, ms[2..]) == s4;
    assert Story(cfg, s1, ms[1..]) && Told(cfg, s1, ms[1..]) == s4;
  }

  /**
   Exactly when the operator can register again. Whatever happened so far, and however many
   registrations it sent, some future sends one more if and only if no token is persisted and
   one is configured to register with. So a process that dies between registering and saving makes
   the next one register a second time, with the same registration token.
   */
  lemma RegistersAgainIff(cfg: Setup, s: Life, ms: seq<Move>)
    requires Unborn(s) && Story(cfg, s, ms)
    ensures
      var t := Told(cfg, s, ms);
      (exists ns :: Story(cfg, t, ns) && Registers(Told(cfg, t, ns).log, |t.log|)) <==>
        Persisted(t.cell) == "" && cfg.registrationToken != ""
  {
    hide Told, Story, Persisted;
    StorySound(cfg, s, ms);
    var t := Told(cfg, s, ms);
    forall ns | Story(cfg, t, ns) && Registers(Told(cfg, t, ns).log, |t.log|)
      ensures Persisted(t.cell) == "" && cfg.registrationToken != ""
    {
      StorySound(cfg, t, ns);
      if cfg.registrationToken == "" {
        NoTokenNoRegistration(cfg, s, ms);
        NoTokenNoRegistration(cfg, t, ns);
      }
    }
    if Persisted(t.cell) == "" && cfg.registrationToken != "" {
      AgainRegisters(cfg, t);
      var u := Told(cfg, t, Again());
      assert u.log[|t.log|].payload.Register?;
      assert Registers(u.log, |t.log|);
    }
  }

  // ----- Where tokens come from -----

  /** The Secret holds no token: it is missing, or its "cluster-token" is missing or empty. */
  ghost predicate NoToken(o: Option<Obj>) {
    || o.None?
    || !o.value.spec.SecretSpec?
    || "cluster-token" !in o.value.spec.data
    || o.value.spec.data["cluster-token"] == ""
  }

  ghost predicate Bears(o: Option<Obj>, t: string) {
    && o.Some? && o.value.spec.SecretSpec?
    && "cluster-token" in o.value.spec.data && o.value.spec.data["cluster-token"] == t
  }

  /** The Secret is one that the operator wrote for t. */
  ghost predicate WrittenFor(o: Option<Obj>, t: string) {
    o.Some? && o.value.spec == SecretSpec(map["cluster-token" := t])
  }

  lemma PersistedMeans(c: Cell)
    ensures NoToken(c.obj) <==> Persisted(c) == ""
    ensures Persisted(c) != "" ==> Bears(c.obj, Persisted(c))
    ensures forall t :: Bears(c.obj, t) || WrittenFor(c.obj, t) ==> Persisted(c) == t
  {
  }

  /** Some registration in the story was answered with t. */
  ghost predicate Obtained(cfg: Setup, s: Life, ms: seq<Move>, t: string)
    decreases |ms|
  {
    && ms != []
    && ((s.phase.Registering? && ms[0].Go? && ms[0].reply == Some(t)) ||
        Obtained(cfg, Moved(cfg, s, ms[0]), ms[1..], t))
  }

  /** The process is about to save t. */
  ghost predicate Saving(s: Life, t: string) {
    (s.phase.Creating? || s.phase.Updating?) && s.phase.token == t
  }

  /** One move: what comes to be saved was just obtained, and only what is being saved is written. */
  lemma MoveSource(cfg: Setup, s: Life, m: Move)
    requires Possible(s, m)
    ensures forall t :: Saving(Moved(cfg, s, m), t) ==>
              Saving(s, t) || (s.phase.Registering? && m.Go? && m.reply == Some(t))
    ensures || Moved(cfg, s, m).cell.obj == s.cell.obj
            || ((s.phase.Creating? || s.phase.Updating?) && WrittenFor(Moved(cfg, s, m).cell.obj, s.phase.token))
  {
  }

  lemma {:induction false} StorySource(cfg: Setup, s: Life, ms: seq<Move>)
    requires Story(cfg, s, ms)
    ensures var u := Told(cfg, s, ms);
            u.cell.obj == s.cell.obj ||
            exists t :: WrittenFor(u.cell.obj, t) && (Obtained(cfg, s, ms, t) || Saving(s, t))
    decreases |ms|
  {
    hide Moved, Possible, WrittenFor, Saving;
    if ms != [] {
      var s1 := Moved(cfg, s, ms[0]);
      MoveSource(cfg, s, ms[0]);
      StorySource(cfg, s1, ms[1..]);
      var u := Told(cfg, s, ms);
      if t :| WrittenFor(u.cell.obj, t) && (Obtained(cfg, s1, ms[1..], t) || Saving(s1, t)) {
        assert Obtained(cfg, s, ms, t) || Saving(s, t);
      } else if s1.cell.obj != s.cell.obj {
        SavingMeans(s);
        assert WrittenFor(u.cell.obj, s.phase.token) && Saving(s, s.phase.token);
      }
    }
  }

  lemma SavingMeans(s: Life)
    ensures s.phase.Creating? || s.phase.Updating? ==> Saving(s, s.phase.token)
  {
  }

  /**
   No token is made up. Whatever boots, crashes and failures there were: if the Secret is no longer as
   it was before the first boot, it is one written for a token that Hydra answered to a registration in
   this very story.
   */
  lemma TokensAreIssued(cfg: Setup, s: Life, ms: seq<Move>)
    requires Unborn(s) && Story(cfg, s, ms)
    ensures var u := Told(cfg, s, ms);
            u.cell.obj == s.cell.obj || exists t :: WrittenFor(u.cell.obj, t) && Obtained(cfg, s, ms, t)
  {
    StorySource(cfg, s, ms);
  }

  /** The process neither dies nor is started again. */
  ghost predicate OneLife(ms: seq<Move>) {
    forall m :: m in ms ==> m.Go? || m.Serve?
  }

  lemma FirstOfLife(ms: seq<Move>)
    requires OneLife(ms)
    ensures ms != [] ==> (ms[0].Go? || ms[0].Serve?) && OneLife(ms[1..])
  {
    if ms != [] {
      assert ms[0] in ms;
      assert forall m :: m in ms[1..] ==> m in ms;
    }
  }

  /** Within one life, a process that is saving t can only come to serve with t, persisted. */
  lemma {:induction false} SavedLife(cfg: Setup, s: Life, ms: seq<Move>, t: string)
    requires Story(cfg, s, ms) && OneLife(ms)
    requires s.phase.Down? || (Saving(s, t) && s.client == t) ||
             (s.phase.Serving? && s.client == t && WrittenFor(s.cell.obj, t))
    ensures var u := Told(cfg, s, ms);
            u.phase.Serving? ==> !s.phase.Down? && u.client == t && WrittenFor(u.cell.obj, t)
    decreases |ms|
  {
    FirstOfLife(ms);
    if ms != [] {
      SavedLife(cfg, Moved(cfg, s, ms[0]), ms[1..], t);
    }
  }

  /**
   A process that found no token serves only on one of its own registration: it serves exactly the
   token answered, and that is what is persisted. If its registration fails it does not serve, and the
   Secret is as it found it.
   */
  lemma ServesOwnToken(cfg: Setup, s: Life, ms: seq<Move>)
    requires s.phase.Registering? && Story(cfg, s, ms) && OneLife(ms)
    ensures var u := Told(cfg, s, ms);
            && (u.phase.Serving? ==>
                  && ms != [] && ms[0].reply.Some?
                  && u.client == ms[0].reply.value && WrittenFor(u.cell.obj, ms[0].reply.value))
            && (ms != [] && ms[0].reply.None? ==> u.phase.Down? && u.cell.obj == s.cell.obj)
  {
    FirstOfLife(ms);
    if ms != [] {
      var s1 := Moved(cfg, s, ms[0]);
      if ms[0].reply.Some? {
        SavedLife(cfg, s1, ms[1..], ms[0].reply.value);
      } else {
        StaysDown(cfg, s1, ms[1..]);
      }
    }
  }

  lemma StaysDown(cfg: Setup, s: Life, ms: seq<Move>)
    requires s.phase.Down? && Story(cfg, s, ms) && OneLife(ms)
    ensures ms == [] && Told(cfg, s, ms) == s
  {
    FirstOfLife(ms);
  }

  // ----- The code -----

  /** How far the startup is from its end. */
  function Rank(p: Phase): nat {
    match p
    case Loading => 4
    case Registering => 3
    case Creating(_) => 2
    case Updating(_) => 1
    case _ => 0
  }

  lemma AdvanceProgresses(cfg: Setup, s: Life, f: Fate, reply: Option<string>)
    requires Rank(s.phase) > 0
    ensures Rank(Advance(cfg, s, f, reply).phase) < Rank(s.phase)
    ensures s.cell.calls <= Advance(cfg, s, f, reply).cell.calls <= s.cell.calls + 1
  {
  }

  /** The startup run to its end, meeting the fates that x has for calls on k. */
  ghost function Startup(cfg: Setup, x: Outside, k: Key, s: Life, reply: Option<string>): Life
    decreases Rank(s.phase)
  {
    if Rank(s.phase) == 0 then s
    else
      AdvanceProgresses(cfg, s, Next(x, k, s.cell), reply);
      Startup(cfg, x, k, Advance(cfg, s, Next(x, k, s.cell), reply), reply)
  }

  function Onward(cfg: Setup, x: Outside, k: Key, s: Life, reply: Option<string>): Life {
    Advance(cfg, s, Next(x, k, s.cell), reply)
  }

  lemma StartupStep(cfg: Setup, x: Outside, k: Key, s: Life, reply: Option<string>)
    ensures Startup(cfg, x, k, s, reply) == Startup(cfg, x, k, Onward(cfg, x, k, s, reply), reply)
    ensures Rank(Onward(cfg, x, k, s, reply).phase) <= (if Rank(s.phase) == 0 then 0 else Rank(s.phase) - 1)
    ensures s.phase.Down? || s.phase.Serving? ==> Startup(cfg, x, k, s, reply) == s == Onward(cfg, x, k, s, reply)
  {
  }

  /** Nobody else writes to k during its next calls. */
  ghost predicate QuietFor(x: Outside, k: Key, c: Cell, calls: nat) {
    forall n: nat :: c.calls <= n < c.calls + calls ==> x.fate(k, n).noise.None?
  }

  /** A startup without interference is a story of the machine, so everything above holds of it. */
  lemma {:induction false} StartupIsStory(cfg: Setup, x: Outside, k: Key, s: Life, reply: Option<string>)
    returns (ms: seq<Move>)
    requires QuietFor(x, k, s.cell, Rank(s.phase))
    ensures Story(cfg, s, ms) && Told(cfg, s, ms) == Startup(cfg, x, k, s, reply)
    decreases Rank(s.phase)
  {
    hide Advance;
    if Rank(s.phase) == 0 {
      ms := [];
    } else {
      var m := Go(Next(x, k, s.cell), reply);
      AdvanceProgresses(cfg, s, Next(x, k, s.cell), reply);
      assert Possible(s, m);
      var rest := StartupIsStory(cfg, x, k, Moved(cfg, s, m), reply);
      ms := [m] + rest;
      assert ms[1..] == rest;
    }
  }

  /** None of the next calls on k fails or is interfered with. */
  ghost predicate CalmFor(x: Outside, k: Key, c: Cell, calls: nat) {
    forall n: nat :: c.calls <= n < c.calls + calls ==>
      x.fate(k, n).noise.None? && x.fate(k, n).verdict.Proceed? && !x.fate(k, n).barred
  }

  /**
   A startup none of whose calls fails gets to serve whenever it can: on the token persisted, or else
   on the one Hydra answers, which is persisted then, whether or not there was a Secret before.
   */
  lemma StartupSucceeds(cfg: Setup, x: Outside, k: Key, s: Life, reply: Option<string>)
    requires s.phase.Loading? && CalmFor(x, k, s.cell, 3)
    ensures
      var t := Startup(cfg, x, k, s, reply);
      && (!NoToken(s.cell.obj) ==> t.phase.Serving? && Bears(s.cell.obj, t.client) && t.cell.obj == s.cell.obj)
      && (NoToken(s.cell.obj) && cfg.registrationToken != "" && reply.Some? ==>
            t.phase.Serving? && t.client == reply.value && WrittenFor(t.cell.obj, reply.value))
  {
    hide Startup, Rank;
    StartupStep(cfg, x, k, s, reply);
    var s1 := Onward(cfg, x, k, s, reply);
    StartupStep(cfg, x, k, s1, reply);
    if s1.phase.Registering? {
      var s2 := Onward(cfg, x, k, s1, reply);
      StartupStep(cfg, x, k, s2, reply);
      if reply.Some? {
        SaveSucceeds(cfg, x, k, s2, reply);
      }
    }
  }

  lemma SaveSucceeds(cfg: Setup, x: Outside, k: Key, s: Life, reply: Option<string>)
    requires s.phase.Creating? && CalmFor(x, k, s.cell, 2)
    ensures var t := Startup(cfg, x, k, s, reply);
            t.phase.Serving? && t.client == s.client && WrittenFor(t.cell.obj, s.phase.token)
  {
    hide Startup;
    SaveSteps(cfg, x, k, s, reply);
    assert x.fate(k, s.cell.calls).verdict.Proceed? && x.fate(k, s.cell.calls + 1).verdict.Proceed?;
  }

  /** The token store over one Secret. */
  class TokenStore {
    const api: Server
    const key: Key

    constructor (api: Server, namespace: string, secretName: string)
      ensures this.api == api && this.key == Key(SecretKind, namespace, secretName)
    {
      this.api := api;
      this.key := Key(SecretKind, namespace, secretName);
    }

    /** None is an error. */
    method Load() returns (token: Option<string>)
      modifies api
      ensures var c := At(old(api.world), key);
              var g := GetCell(Next(api.outside, key, c), c);
              && api.world == old(api.world)[key := g.0]
              && token == (match g.1
                           case Answer(o) => Some(TokenIn(o.obj))
                           case Failed(e) => if e == NotFound then Some("") else None)
              && (g.1.Answer? && g.1.stored.obj.spec.SecretSpec? ==>
                    var data := g.1.stored.obj.spec.data;
                    token == Some(if "cluster-token" in data then data["cluster-token"] else ""))
    {
      var r := api.Get(key);
      if r.Failed? && r.error == NotFound {
        return Some("");
      }
      if r.Failed? {
        return None;
      }
      token := Some(TokenIn(r.stored.obj));
    }

    method Save(token: string) returns (ok: bool)
      modifies api
      ensures var c := At(old(api.world), key);
              var o := Obj(SecretSpec(map["cluster-token" := token]), map[], map[], BLANK_STATUS);
              var a := CreateCell(api.outside.subresource, Next(api.outside, key, c), c, o);
              var b := UpdateCell(api.outside.subresource, Next(api.outside, key, a.0), a.0, o, None);
              if a.1 == Failed(AlreadyExists)
              then api.world == old(api.world)[key := b.0] && ok == b.1.Answer?
              else api.world == old(api.world)[key := a.0] && ok == a.1.Answer?
    {
      var secret := Fresh(SecretSpec(map[TOKEN_KEY := token]), map[]);
      var r := api.Create(key, secret);
      if r.Failed? && r.error == AlreadyExists {
        r := api.Update(key, secret, None);
      }
      ok := r.Answer?;
    }
  }

  /**
   What a startup comes to, given what the load answered. A load that fails, no token where none can be
   registered, and a registration that fails all end it with the Secret as it was found; a token found
   is used as it is; a token obtained is used only once it is in the Secret. `quiet` says that nobody
   else writes to the Secret while it is saved.
   */
  ghost predicate StartsRight(load: Reply, registrationToken: string, reply: Option<string>, served: Option<string>,
                              before: seq<Request>, after: seq<Request>,
                              found: Option<Obj>, left: Option<Obj>, quiet: bool) {
    var loaded := if load.Answer? then Some(load.stored.obj) else None;
    if load.Failed? && load.error != NotFound then served == None && after == before && left == found
    else if !NoToken(loaded) then served.Some? && Bears(loaded, served.value) && after == before && left == found
    else if registrationToken == "" then served == None && after == before && left == found
    else
      && after == before + [Request(None, Register(registrationToken))]
      && (reply.None? ==> served == None && left == found)
      && (reply.Some? && quiet ==> left == found || WrittenFor(left, reply.value))
      && (reply.Some? && served.Some? ==> served == reply && WrittenFor(left, reply.value))
  }

  lemma StartupStartsRight(cfg: Setup, x: Outside, k: Key, s: Life, reply: Option<string>)
    requires s.phase.Loading?
    ensures
      var g := GetCell(Next(x, k, s.cell), s.cell);
      var t := Startup(cfg, x, k, s, reply);
      StartsRight(g.1, cfg.registrationToken, reply, if t.phase.Serving? then Some(t.client) else None,
                  s.log, t.log, g.0.obj, t.cell.obj, QuietFor(x, k, g.0, 2))
  {
    hide Startup, Rank, GetCell, CreateCell, UpdateCell, SecretObj;
    StartupStep(cfg, x, k, s, reply);
    var s1 := Onward(cfg, x, k, s, reply);
    StartupStep(cfg, x, k, s1, reply);
    if s1.phase.Registering? {
      var s2 := Onward(cfg, x, k, s1, reply);
      StartupStep(cfg, x, k, s2, reply);
      if reply.Some? {
        SaveSteps(cfg, x, k, s2, reply);
        SaveWrites(cfg.subresource, Next(x, k, s2.cell), s2.cell, reply.value);
        var c := CreateCell(cfg.subresource, Next(x, k, s2.cell), s2.cell, SecretObj(reply.value)).0;
        SaveWrites(cfg.subresource, Next(x, k, c), c, reply.value);
      }
    }
  }

  /**
   The startup of main: load the token, or register and save the one obtained. The manager is
   started only if this returns true; otherwise the process exits. `reply` is Hydra's answer
   should it be asked.
   */
  method StartOperator(tokens: TokenStore, hydra: Client, registrationToken: string, reply: Option<string>)
    returns (ok: bool)
    modifies tokens.api, hydra
    requires hydra.token == ""
    ensures
      var cfg := Setup(tokens.api.outside.subresource, registrationToken);
      var s := Life(At(old(tokens.api.world), tokens.key), Loading, "", old(hydra.sent));
      var t := Startup(cfg, tokens.api.outside, tokens.key, s, reply);
      && ok == t.phase.Serving?
      && hydra.sent == t.log && hydra.turn == old(hydra.turn)
      && tokens.api.world == old(tokens.api.world)[tokens.key := t.cell]
      && (ok ==> hydra.token == t.client)
    ensures
      var c := At(old(tokens.api.world), tokens.key);
      var g := GetCell(Next(tokens.api.outside, tokens.key, c), c);
      StartsRight(g.1, registrationToken, reply, if ok then Some(hydra.token) else None, old(hydra.sent), hydra.sent,
                  g.0.obj, At(tokens.api.world, tokens.key).obj, QuietFor(tokens.api.outside, tokens.key, g.0, 2))
  {
    hide Startup, Rank, GetCell, CreateCell, UpdateCell, SecretObj, StartsRight, QuietFor;
    ghost var cfg, x, k := Setup(tokens.api.outside.subresource, registrationToken), tokens.api.outside, tokens.key;
    ghost var s := Life(At(tokens.api.world, k), Loading, "", hydra.sent);
    StartupStartsRight(cfg, x, k, s, reply);
    StartupStep(cfg, x, k, s, reply);
    s := Onward(cfg, x, k, s, reply);
    var token := tokens.Load();
    StartupStep(cfg, x, k, s, reply);
    if token.None? {
      return false;
    }
    if token.value == "" {
      if registrationToken == "" {
        return false;
      }
      s := Onward(cfg, x, k, s, reply);
      token := hydra.RegisterCluster(registrationToken, reply);
      StartupStep(cfg, x, k, s, reply);
      if token.None? {
        return false;
      }
      SaveSteps(cfg, x, k, s, reply);
      assert SecretObj(token.value) == Obj(SecretSpec(map["cluster-token" := token.value]), map[], map[], BLANK_STATUS)
        by { SecretMeans(token.value); }
      ok := tokens.Save(token.value);
      return;
    }
    hydra.SetToken(token.value);
    ok := true;
  }

  lemma SecretMeans(t: string)
    ensures SecretObj(t) == Obj(SecretSpec(map["cluster-token" := t]), map[], map[], BLANK_STATUS)
  {
  }

  /** A call of Save leaves the Secret alone or writes it for the token, the latter if it is answered. */
  lemma SaveWrites(sub: bool, f: Fate, c: Cell, t: string)
    ensures var a := CreateCell(sub, f, c, SecretObj(t));
            && (f.noise.None? ==> a.0.obj == c.obj || WrittenFor(a.0.obj, t))
            && (a.1.Answer? ==> WrittenFor(a.0.obj, t))
            && (a.1 == Failed(AlreadyExists) && f.noise.None? ==> a.0.obj == c.obj)
            && a.0.calls == c.calls + 1
    ensures var b := UpdateCell(sub, f, c, SecretObj(t), None);
            && (f.noise.None? ==> b.0.obj == c.obj || WrittenFor(b.0.obj, t))
            && (b.1.Answer? ==> WrittenFor(b.0.obj, t))
  {
  }

  /** The last one or two steps of a startup, which are those of Save. */
  lemma SaveSteps(cfg: Setup, x: Outside, k: Key, s: Life, reply: Option<string>)
    requires s.phase.Creating?
    ensures
      var t := Startup(cfg, x, k, s, reply);
      var a := CreateCell(cfg.subresource, Next(x, k, s.cell), s.cell, SecretObj(s.phase.token));
      var b := UpdateCell(cfg.subresource, Next(x, k, a.0), a.0, SecretObj(s.phase.token), None);
      var (c, ok) := if a.1 == Failed(AlreadyExists) then (b.0, b.1.Answer?) else (a.0, a.1.Answer?);
      t == if ok then Life(c, Serving, s.client, s.log) else Life(c, Down, "", s.log)
  {
    hide Startup, CreateCell, UpdateCell;
    StartupStep(cfg, x, k, s, reply);
    var s1 := Onward(cfg, x, k, s, reply);
    StartupStep(cfg, x, k, s1, reply);
    var s2 := Onward(cfg, x, k, s1, reply);
    StartupStep(cfg, x, k, s2, reply);
  }
}
