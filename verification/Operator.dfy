/** The operator's whole life: startup, then its two loops side by side for as long as it runs. */
module Operator {
  import opened Prelude
  import opened Objects
  import opened ApiServer
  import opened Tasks
  import opened Hydra
  import opened Footprints
  import opened Settling
  import opened Reports
  import opened Manager
  import opened SyncTheorems
  import opened Convergence
  import opened Registration

  // ----- The two loops -----

  /** What one sync is given: the desired state pulled, if any, and what detection says of Gatekeeper. */
  datatype SyncInput = SyncInput(pulled: Option<DesiredState>, gatekeeper: Option<bool>)

  /** The sync loop alone. */
  ghost function Synced(x: Outside, w: World, syncs: seq<SyncInput>): SyncResult {
    if syncs == [] then SyncResult(w, [])
    else
      var before, last := Synced(x, w, syncs[..|syncs| - 1]), syncs[|syncs| - 1];
      var s := Sync(x, before.world, last.pulled, last.gatekeeper);
      SyncResult(s.world, before.sent + s.sent)
  }

  /** The heartbeat loop alone. */
  function Beats(version: string, detections: seq<Option<Detection>>): seq<Payload> {
    if detections == [] then []
    else Beats(version, detections[..|detections| - 1]) + HeartbeatOf(version, detections[|detections| - 1])
  }

  /** m is made of a and b, each in its own order. */
  ghost predicate Merges(m: seq<Payload>, a: seq<Payload>, b: seq<Payload>)
    decreases |m|
  {
    if m == [] then a == [] && b == []
    else
      var init, last := m[..|m| - 1], m[|m| - 1];
      || (a != [] && a[|a| - 1] == last && Merges(init, a[..|a| - 1], b))
      || (b != [] && b[|b| - 1] == last && Merges(init, a, b[..|b| - 1]))
  }

  /**
   The loops running concurrently: heartbeats do not touch the store, and may fall between any two
   requests of the syncs.
   */
  ghost predicate Concurrent(x: Outside, w: World, version: string, syncs: seq<SyncInput>,
                             detections: seq<Option<Detection>>, r: SyncResult) {
    var s := Synced(x, w, syncs);
    r.world == s.world && Merges(r.sent, s.sent, Beats(version, detections))
  }

  lemma {:induction false} MergesMore(m: seq<Payload>, a: seq<Payload>, b: seq<Payload>, s: seq<Payload>)
    requires Merges(m, a, b)
    ensures Merges(m + s, a + s, b) && Merges(m + s, a, b + s)
    decreases |s|
  {
    if s == [] {
      assert m + s == m && a + s == a && b + s == b;
    } else {
      var init := s[..|s| - 1];
      MergesMore(m, a, b, init);
      assert (m + s)[..|m + s| - 1] == m + init;
      assert (a + s)[..|a + s| - 1] == a + init;
      assert (b + s)[..|b + s| - 1] == b + init;
    }
  }

  function WithoutHeartbeats(ps: seq<Payload>): seq<Payload> {
    if ps == [] then []
    else
      var last := ps[|ps| - 1];
      WithoutHeartbeats(ps[..|ps| - 1]) + if last.Heartbeat? then [] else [last]
  }

  /** All of ps are heartbeats, or none is. */
  ghost predicate Uniform(ps: seq<Payload>, heartbeats: bool) {
    forall i :: 0 <= i < |ps| ==> ps[i].Heartbeat? == heartbeats
  }

  lemma UniformInit(ps: seq<Payload>, heartbeats: bool)
    requires ps != [] && Uniform(ps, heartbeats)
    ensures Uniform(ps[..|ps| - 1], heartbeats) && ps[|ps| - 1].Heartbeat? == heartbeats
  {
  }

  lemma {:induction false} MergeParts(m: seq<Payload>, a: seq<Payload>, b: seq<Payload>)
    requires Merges(m, a, b) && Uniform(a, false) && Uniform(b, true)
    ensures WithoutHeartbeats(m) == a
    decreases |m|
  {
    hide Uniform;
    if m != [] {
      var init, last := m[..|m| - 1], m[|m| - 1];
      if a != [] && a[|a| - 1] == last && Merges(init, a[..|a| - 1], b) {
        UniformInit(a, false);
        MergeParts(init, a[..|a| - 1], b);
        assert a == a[..|a| - 1] + [last];
      } else {
        UniformInit(b, true);
        MergeParts(init, a, b[..|b| - 1]);
        assert a + [] == a;
      }
    }
  }

  lemma {:induction false} BeatsAreHeartbeats(version: string, detections: seq<Option<Detection>>)
    ensures forall p :: p in Beats(version, detections) ==> p.Heartbeat?
    decreases |detections|
  {
    if detections != [] {
      BeatsAreHeartbeats(version, detections[..|detections| - 1]);
    }
  }

  lemma {:induction false} DomainsSendNoHeartbeat(ss: seq<DomainStatus>)
    ensures forall p :: p in DomainReports(ss) ==> p.DomainReport?
    decreases |ss|
  {
    if ss != [] {
      DomainsSendNoHeartbeat(ss[..|ss| - 1]);
    }
  }

  lemma {:induction false} ContainersSendNoHeartbeat(cs: seq<Container>, ns: seq<Node>)
    requires AllShaped(cs, ns)
    ensures forall p :: p in ContainerReports(cs, ns) ==> p.DomainReport? || p.AgentStatus?
    decreases |cs|
  {
    hide AgentReport, DomainReports, DomainStatuses;
    if cs != [] {
      var c, n := cs[|cs| - 1], ns[|ns| - 1];
      ContainersSendNoHeartbeat(cs[..|cs| - 1], ns[..|ns| - 1]);
      if n.outcome.Ok? {
        DomainsSendNoHeartbeat(DomainStatuses(c.customDomains, n.kids[1..]));
      }
    }
  }

  lemma SyncSendsNoHeartbeat(x: Outside, w: World, pulled: Option<DesiredState>, gatekeeper: Option<bool>)
    ensures forall p :: p in Sync(x, w, pulled, gatekeeper).sent ==> !p.Heartbeat?
  {
    hide Sync, SyncReports, PlanShaped;
    match pulled
    case None =>
      Accounting(x, w, DesiredState([], [], []), gatekeeper);
    case Some(st) =>
      var r := SyncRun(x, w, st, gatekeeper);
      ReportsAreNoHeartbeats(st, r.1);
  }

  lemma ReportsAreNoHeartbeats(st: DesiredState, ns: seq<Node>)
    requires PlanShaped(st, ns)
    ensures forall p :: p in SyncReports(st, ns) ==> !p.Heartbeat?
  {
    hide ContainerReports, SyncedCount, ReadyCount, NamespaceError, AllShaped;
    ContainersSendNoHeartbeat(st.containers, ContainerNodes(st, ns));
  }

  lemma {:induction false} SyncedSendsNoHeartbeat(x: Outside, w: World, syncs: seq<SyncInput>)
    ensures forall p :: p in Synced(x, w, syncs).sent ==> !p.Heartbeat?
    decreases |syncs|
  {
    hide Sync;
    if syncs != [] {
      var last := syncs[|syncs| - 1];
      SyncedSendsNoHeartbeat(x, w, syncs[..|syncs| - 1]);
      SyncSendsNoHeartbeat(x, Synced(x, w, syncs[..|syncs| - 1]).world, last.pulled, last.gatekeeper);
    }
  }

  /** However the loops interleave, the store and the requests other than heartbeats are those of the syncs alone. */
  lemma HeartbeatsDoNotMatter(x: Outside, w: World, version: string, syncs: seq<SyncInput>,
                              detections: seq<Option<Detection>>, r: SyncResult)
    requires Concurrent(x, w, version, syncs, detections, r)
    ensures r.world == Synced(x, w, syncs).world
    ensures WithoutHeartbeats(r.sent) == Synced(x, w, syncs).sent
  {
    hide Synced, Beats, Merges;
    SyncedSendsNoHeartbeat(x, w, syncs);
    BeatsAreHeartbeats(version, detections);
    MergeParts(r.sent, Synced(x, w, syncs).sent, Beats(version, detections));
  }

  // ----- The loops as they run -----

  /** What the other loop sends during k turns from the n-th on. */
  function Others(other: nat -> seq<Payload>, n: nat, k: nat): seq<Payload> {
    if k == 0 then [] else Others(other, n, k - 1) + other(n + k - 1)
  }

  lemma {:induction false} WovenMerges(other: nat -> seq<Payload>, n: nat, ps: seq<Payload>)
    ensures Merges(Woven(other, n, ps), ps, Others(other, n, |ps|))
    decreases |ps|
  {
    hide Merges, Woven;
    if ps == [] {
      NothingMerges(other, n);
    } else {
      var l := |ps| - 1;
      WovenMerges(other, n, ps[..l]);
      WovenLast(other, n, ps);
      var m, o := Woven(other, n, ps[..l]), Others(other, n, l);
      MergesMore(m, ps[..l], o, other(n + l));
      MergesMore(m + other(n + l), ps[..l], o + other(n + l), [ps[l]]);
      assert ps == ps[..l] + [ps[l]];
    }
  }

  lemma NothingMerges(other: nat -> seq<Payload>, n: nat)
    ensures Merges(Woven(other, n, []), [], [])
  {
  }

  lemma WovenLast(other: nat -> seq<Payload>, n: nat, ps: seq<Payload>)
    requires ps != []
    ensures var l := |ps| - 1; Woven(other, n, ps) == Woven(other, n, ps[..l]) + other(n + l) + [ps[l]]
  {
    hide Woven;
    var l := |ps| - 1;
    assert ps == ps[..l] + [ps[l]];
    WovenAppend(other, n, ps[..l], [ps[l]]);
    WovenOne(other, n + l, ps[l]);
  }

  /** The detections behind k turns from the n-th on. */
  function Gathered(detections: nat -> seq<Option<Detection>>, n: nat, k: nat): seq<Option<Detection>> {
    if k == 0 then [] else Gathered(detections, n, k - 1) + detections(n + k - 1)
  }

  lemma {:induction false} BeatsAppend(version: string, ds: seq<Option<Detection>>, es: seq<Option<Detection>>)
    ensures Beats(version, ds + es) == Beats(version, ds) + Beats(version, es)
    decreases |es|
  {
    hide HeartbeatOf;
    if es == [] {
      assert ds + es == ds;
    } else {
      BeatsAppend(version, ds, es[..|es| - 1]);
      assert (ds + es)[..|ds + es| - 1] == ds + es[..|es| - 1];
    }
  }

  /** The heartbeat loop fires for these detections just before each turn of the sync loop. */
  ghost predicate Beating(other: nat -> seq<Payload>, version: string, detections: nat -> seq<Option<Detection>>) {
    forall n: nat :: other(n) == Beats(version, detections(n))
  }

  lemma {:induction false} OthersBeat(other: nat -> seq<Payload>, version: string,
                                      detections: nat -> seq<Option<Detection>>,
                                      n: nat, k: nat)
    requires Beating(other, version, detections)
    ensures Others(other, n, k) == Beats(version, Gathered(detections, n, k))
    decreases k
  {
    hide Beats;
    if k == 0 {
      NoBeats(version);
    } else {
      OthersBeat(other, version, detections, n, k - 1);
      BeatsAppend(version, Gathered(detections, n, k - 1), detections(n + k - 1));
    }
  }

  lemma NoBeats(version: string)
    ensures Beats(version, []) == []
  {
  }

  lemma SyncedMore(x: Outside, w: World, syncs: seq<SyncInput>, i: SyncInput)
    ensures var before := Synced(x, w, syncs);
            var s := Sync(x, before.world, i.pulled, i.gatekeeper);
            Synced(x, w, syncs + [i]) == SyncResult(s.world, before.sent + s.sent)
  {
    hide Sync;
    assert (syncs + [i])[..|syncs|] == syncs;
  }

  lemma NothingSynced(x: Outside, w: World)
    ensures Synced(x, w, []) == SyncResult(w, [])
  {
  }

  /** What the loops leave: the sync loop's requests woven with the heartbeats, and those that follow the last sync. */
  ghost function Looped(x: Outside, w: World, syncs: seq<SyncInput>, other: nat -> seq<Payload>, n: nat): SyncResult {
    var s := Synced(x, w, syncs);
    SyncResult(s.world, Woven(other, n, s.sent) + other(n + |s.sent|))
  }

  /** That is one way for the two loops to run concurrently, whatever the heartbeat loop does when. */
  lemma LoopedIsConcurrent(x: Outside, w: World, syncs: seq<SyncInput>, other: nat -> seq<Payload>, n: nat,
                           version: string, detections: nat -> seq<Option<Detection>>)
    requires Beating(other, version, detections)
    ensures Concurrent(x, w, version, syncs, Gathered(detections, n, |Synced(x, w, syncs).sent| + 1),
                       Looped(x, w, syncs, other, n))
  {
    hide Merges, Synced, Woven, Beats, Beating, Gathered;
    var ps := Synced(x, w, syncs).sent;
    WovenMerges(other, n, ps);
    MergesMore(Woven(other, n, ps), ps, Others(other, n, |ps|), other(n + |ps|));
    OthersBeat(other, version, detections, n, |ps| + 1);
  }

  /** The manager's loops, side by side, for as many syncs as are given. */
  method RunLoops(m: Manager, syncs: seq<SyncInput>)
    requires m.Valid()
    modifies m.api, m.hydra
    ensures m.hydra.token == old(m.hydra.token)
    ensures var r := Looped(m.api.outside, old(m.api.world), syncs, m.hydra.other, old(m.hydra.turn));
            m.api.world == r.world && m.hydra.sent == old(m.hydra.sent) + Signed(m.hydra.token, r.sent)
  {
    hide Sync, Synced, Signed, Woven;
    ghost var x, w, from := m.api.outside, m.api.world, m.hydra.State();
    NothingSynced(x, w);
    IssuesNone(m.hydra.token, m.hydra.other, from);
    for i := 0 to |syncs|
      invariant m.hydra.token == old(m.hydra.token)
      invariant var r := Synced(x, w, syncs[..i]); m.api.world == r.world && m.hydra.Issued(from, r.sent)
    {
      ghost var before, mid := Synced(x, w, syncs[..i]), m.hydra.State();
      assert syncs[..i + 1] == syncs[..i] + [syncs[i]];
      SyncedMore(x, w, syncs[..i], syncs[i]);
      m.SyncOnce(syncs[i].pulled, syncs[i].gatekeeper);
      IssuesThen(m.hydra.token, m.hydra.other, from, mid, m.hydra.State(), before.sent,
                 Sync(x, before.world, syncs[i].pulled, syncs[i].gatekeeper).sent);
    }
    assert syncs[..|syncs|] == syncs;
    ghost var s := Synced(x, w, syncs);
    SignedAppend(m.hydra.token, Woven(m.hydra.other, from.1, s.sent), m.hydra.other(from.1 + |s.sent|));
    m.hydra.Idle();
  }

  // ----- Histories -----

  /** The desired states that a history pulled never derive k. */
  ghost predicate NeverDerived(syncs: seq<SyncInput>, k: Key) {
    forall i :: i in syncs && i.pulled.Some? ==> !Derived(i.pulled.value, i.gatekeeper == Some(true), k)
  }

  /** A key that no pulled desired state derives is untouched by the whole history, whatever fails in it. */
  lemma {:induction false} HistoryFrame(x: Outside, w: World, syncs: seq<SyncInput>, k: Key)
    requires NeverDerived(syncs, k)
    ensures At(Synced(x, w, syncs).world, k) == At(w, k)
    decreases |syncs|
  {
    hide Sync, Derived;
    if syncs != [] {
      var last := syncs[|syncs| - 1];
      HistoryFrame(x, w, syncs[..|syncs| - 1], k);
      var v := Synced(x, w, syncs[..|syncs| - 1]).world;
      assert last in syncs;
      if last.pulled.Some? {
        SyncFrame(x, v, last.pulled.value, last.gatekeeper, k);
      } else {
        Accounting(x, v, DesiredState([], [], []), last.gatekeeper);
      }
    }
  }

  lemma SecretsNeverDerived(syncs: seq<SyncInput>, k: Key)
    requires k.kind == SecretKind
    ensures NeverDerived(syncs, k)
  {
  }

  /**
   Whatever a history of syncs and heartbeats did, with any desired states and any failures, one
   more sync in which nothing fails settles everything its desired state lists.
   */
  lemma StabilisesAfterHistory(x: Outside, w: World, past: seq<SyncInput>, st: DesiredState, gatekeeper: Option<bool>)
    requires DistinctKeys(st)
    requires CalmBetween(x, Synced(x, w, past).world, Synced(x, w, past + [SyncInput(Some(st), gatekeeper)]).world)
    ensures Settled(x.parse, st, gatekeeper, Synced(x, w, past).world,
                    Synced(x, w, past + [SyncInput(Some(st), gatekeeper)]).world)
  {
    hide Sync, Synced, DistinctKeys, CalmBetween, Settled;
    SyncedMore(x, w, past, SyncInput(Some(st), gatekeeper));
    SelfStabilisation(x, Synced(x, w, past).world, st, gatekeeper);
  }

  // ----- The whole process -----

  /** The process: startup, and if it succeeds the manager's loops until the process is stopped. */
  method RunOperator(tokens: TokenStore, m: Manager, registrationToken: string, reply: Option<string>,
                     syncs: seq<SyncInput>)
    returns (started: bool)
    requires m.Valid() && tokens.api == m.api && m.hydra.token == ""
    modifies m.api, m.hydra
    ensures
      var x := m.api.outside;
      var s := Life(At(old(m.api.world), tokens.key), Loading, "", old(m.hydra.sent));
      var t := Startup(Setup(x.subresource, registrationToken), x, tokens.key, s, reply);
      var w := old(m.api.world)[tokens.key := t.cell];
      var r := if started then Looped(x, w, syncs, m.hydra.other, old(m.hydra.turn)) else SyncResult(w, []);
      && started == t.phase.Serving?
      && m.api.world == r.world
      && m.hydra.sent == t.log + Signed(t.client, r.sent)
  {
    hide Looped, Startup;
    started := StartOperator(tokens, m.hydra, registrationToken, reply);
    if started {
      RunLoops(m, syncs);
    } else {
      SignedNone(m.hydra.token);
    }
  }

  /**
   From the first request to the last, and however its two loops interleave, a process that nobody
   else's writes to the Secret disturb sends nothing but registrations without a token and requests
   with the token that is persisted when it ends; and its syncs leave the Secret as the startup
   left it.
   */
  lemma EveryRequestSigned(cfg: Setup, x: Outside, w: World, k: Key, reply: Option<string>, version: string,
                           syncs: seq<SyncInput>, detections: seq<Option<Detection>>, r: SyncResult)
    requires k.kind == SecretKind && QuietFor(x, k, At(w, k), 4)
    requires var t := Startup(cfg, x, k, Life(At(w, k), Loading, "", []), reply);
             Concurrent(x, w[k := t.cell], version, syncs, detections, r)
    ensures
      var t := Startup(cfg, x, k, Life(At(w, k), Loading, "", []), reply);
      var log := t.log + Signed(t.client, r.sent);
      && At(r.world, k) == t.cell
      && (t.phase.Serving? ==>
            forall i :: 0 <= i < |log| ==>
              if i < |t.log| then log[i] == Request(None, Register(cfg.registrationToken))
              else log[i].bearer == Some(Persisted(At(r.world, k))))
  {
    hide Startup, Synced, Beats, Merges, Persisted, Told, Story, Signed;
    var s := Life(At(w, k), Loading, "", []);
    var t := Startup(cfg, x, k, s, reply);
    var born := s.(phase := Down);
    var ms := StartupIsStory(cfg, x, k, s, reply);
    SecretsNeverDerived(syncs, k);
    HistoryFrame(x, w[k := t.cell], syncs, k);
    BootThen(cfg, born, ms);
    ServesWithPersistedToken(cfg, born, [Boot] + ms);
    StartupLog(cfg, x, k, s, reply);
  }

  lemma BootThen(cfg: Setup, s: Life, ms: seq<Move>)
    requires s.phase == Down && Story(cfg, s.(phase := Loading, client := ""), ms)
    ensures Story(cfg, s, [Boot] + ms) && Told(cfg, s, [Boot] + ms) == Told(cfg, s.(phase := Loading, client := ""), ms)
  {
    assert ([Boot] + ms)[1..] == ms;
  }

  /** A startup sends registrations only. */
  lemma {:induction false} StartupLog(cfg: Setup, x: Outside, k: Key, s: Life, reply: Option<string>)
    requires forall i :: 0 <= i < |s.log| ==> s.log[i] == Request(None, Register(cfg.registrationToken))
    ensures var t := Startup(cfg, x, k, s, reply);
            forall i :: 0 <= i < |t.log| ==> t.log[i] == Request(None, Register(cfg.registrationToken))
    decreases Rank(s.phase)
  {
    hide Startup;
    StartupStep(cfg, x, k, s, reply);
    if Rank(s.phase) > 0 {
      var u := Advance(cfg, s, Next(x, k, s.cell), reply);
      assert u.log == s.log || u.log == s.log + [Request(None, Register(cfg.registrationToken))];
      StartupLog(cfg, x, k, u, reply);
    }
  }
}
