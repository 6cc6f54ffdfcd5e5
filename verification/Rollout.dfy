/**
 The wire form of custom domains, and the promise that Hydra may switch between bare hostnames and
 {id, hostname} objects entry by entry: nothing changes but the callbacks.
 */
module Rollout {
  import opened Prelude
  import opened ApiServer
  import opened Tasks
  import opened Hydra
  import opened Plan
  import opened Reports

  /** JSON values; the fields of an object are those the decoder's name matching finds. */
  datatype Json =
    | JNull
    | JBool(b: bool)
    | JNumber(n: int)
    | JString(s: string)
    | JArray(items: seq<Json>)
    | JObject(fields: map<string, Json>)

  /** Decoding into a string: null leaves it empty, any other non-string is an error. */
  function DecodeString(j: Json): Option<string> {
    match j
    case JString(s) => Some(s)
    case JNull => Some("")
    case _ => None
  }

  function DecodeField(fields: map<string, Json>, name: string): Option<string> {
    if name in fields then DecodeString(fields[name]) else Some("")
  }

  function DecodeDomain(j: Json): Option<CustomDomain> {
    match j
    case JString(s) => Some(CustomDomain("", s))
    case JNull => Some(CustomDomain("", ""))
    case JObject(fields) =>
      var id, hostname := DecodeField(fields, "id"), DecodeField(fields, "hostname");
      if id.Some? && hostname.Some? then Some(CustomDomain(id.value, hostname.value)) else None
    case _ => None
  }

  /** The receiver that decoding writes through. */
  class DomainEntry {
    var id: string
    var hostname: string

    constructor ()
      ensures id == "" && hostname == ""
    {
      id, hostname := "", "";
    }

    method UnmarshalJSON(data: Json) returns (ok: bool)
      modifies this
      ensures ok <==> DecodeDomain(data).Some?
      ensures ok ==> CustomDomain(id, hostname) == DecodeDomain(data).value
      ensures !ok ==> id == old(id) && hostname == old(hostname)
      ensures match data
              case JString(s) => ok && id == "" && hostname == s
              case JNull => ok && id == "" && hostname == ""
              case JObject(f) =>
                && (ok <==> ("id" in f ==> f["id"].JString? || f["id"].JNull?)
                            && ("hostname" in f ==> f["hostname"].JString? || f["hostname"].JNull?))
                && (ok ==> id == (if "id" in f && f["id"].JString? then f["id"].s else ""))
                && (ok ==> hostname == (if "hostname" in f && f["hostname"].JString? then f["hostname"].s else ""))
              case _ => !ok
    {
      var bare := DecodeString(data);
      if bare.Some? {
        id := "";
        hostname := bare.value;
        return true;
      }
      if !data.JObject? {
        return false;
      }
      var i := DecodeField(data.fields, "id");
      var h := DecodeField(data.fields, "hostname");
      if i.None? || h.None? {
        return false;
      }
      id, hostname := i.value, h.value;
      ok := true;
    }
  }

  /** A container as received: everything else decoded, its custom domains still JSON. */
  datatype WireContainer = WireContainer(base: Container, domains: seq<Json>)

  function DecodeDomains(js: seq<Json>): (r: Option<seq<CustomDomain>>)
    ensures r.Some? ==> |r.value| == |js| && forall i :: 0 <= i < |js| ==> DecodeDomain(js[i]) == Some(r.value[i])
    ensures r.None? ==> exists i :: 0 <= i < |js| && DecodeDomain(js[i]).None?
  {
    if js == [] then Some([])
    else
      var a, b := DecodeDomains(js[..|js| - 1]), DecodeDomain(js[|js| - 1]);
      if a.Some? && b.Some? then Some(a.value + [b.value]) else None
  }

  function DecodeContainers(cs: seq<WireContainer>): (r: Option<seq<Container>>)
    ensures r.Some? ==> |r.value| == |cs|
  {
    if cs == [] then Some([])
    else
      var a, b := DecodeContainers(cs[..|cs| - 1]), DecodeDomains(cs[|cs| - 1].domains);
      if a.Some? && b.Some? then Some(a.value + [cs[|cs| - 1].base.(customDomains := b.value)]) else None
  }

  /** js' is js with the entries marked in `bare` replaced by their hostnames as plain strings. */
  ghost predicate Bared(js: seq<Json>, js': seq<Json>, bare: seq<bool>) {
    && |js| == |js'| == |bare|
    && forall i :: 0 <= i < |js| ==>
         if bare[i] then DecodeDomain(js[i]).Some? && js'[i] == JString(DecodeDomain(js[i]).value.hostname)
         else js'[i] == js[i]
  }

  ghost predicate AllBared(cs: seq<WireContainer>, cs': seq<WireContainer>, bare: seq<seq<bool>>) {
    && |cs| == |cs'| == |bare|
    && forall i :: 0 <= i < |cs| ==> cs'[i].base == cs[i].base && Bared(cs[i].domains, cs'[i].domains, bare[i])
  }

  function BareDomain(d: CustomDomain, bare: bool): CustomDomain {
    if bare then d.(id := "") else d
  }

  lemma {:induction false} BaredDecodes(js: seq<Json>, js': seq<Json>, bare: seq<bool>)
    requires Bared(js, js', bare)
    ensures DecodeDomains(js').Some? <==> DecodeDomains(js).Some?
    ensures |js| == |js'| == |bare|
    ensures DecodeDomains(js).Some? ==>
              forall i :: 0 <= i < |js| ==>
                DecodeDomains(js').value[i] == BareDomain(DecodeDomains(js).value[i], bare[i])
    decreases |js|
  {
    if js != [] {
      var l := |js| - 1;
      assert bare[l] ==> DecodeDomain(js'[l]) == Some(BareDomain(DecodeDomain(js[l]).value, true));
      assert Bared(js[..l], js'[..l], bare[..l]);
      BaredDecodes(js[..l], js'[..l], bare[..l]);
    }
  }

  /** The same containers, some domain IDs blanked. */
  ghost predicate Blanked(cs: seq<Container>, cs': seq<Container>, bare: seq<seq<bool>>) {
    && |cs| == |cs'| == |bare|
    && forall i :: 0 <= i < |cs| ==> BlankedOne(cs[i], cs'[i], bare[i])
  }

  ghost predicate BlankedOne(c: Container, c': Container, bare: seq<bool>) {
    && c' == c.(customDomains := c'.customDomains)
    && |c'.customDomains| == |c.customDomains| == |bare|
    && forall j :: 0 <= j < |bare| ==> c'.customDomains[j] == BareDomain(c.customDomains[j], bare[j])
  }

  lemma DomainsBared(base: Container, base': Container, ds: seq<CustomDomain>, ds': seq<CustomDomain>, bare: seq<bool>)
    requires base' == base && |ds| == |ds'| == |bare|
    requires forall i :: 0 <= i < |ds| ==> ds'[i] == BareDomain(ds[i], bare[i])
    ensures BlankedOne(base.(customDomains := ds), base'.(customDomains := ds'), bare)
  {
  }

  lemma {:induction false} AllBaredDecode(cs: seq<WireContainer>, cs': seq<WireContainer>, bare: seq<seq<bool>>)
    requires AllBared(cs, cs', bare)
    ensures DecodeContainers(cs').Some? <==> DecodeContainers(cs).Some?
    ensures DecodeContainers(cs).Some? ==> Blanked(DecodeContainers(cs).value, DecodeContainers(cs').value, bare)
    decreases |cs|
  {
    hide Bared, DecodeDomains, BlankedOne, BareDomain;
    if cs != [] {
      var l := |cs| - 1;
      AllBaredDecode(cs[..l], cs'[..l], bare[..l]);
      BaredDecodes(cs[l].domains, cs'[l].domains, bare[l]);
      if DecodeContainers(cs).Some? {
        var ds, ds' := DecodeContainers(cs).value, DecodeContainers(cs').value;
        DomainsBared(cs[l].base, cs'[l].base, ds[l].customDomains, ds'[l].customDomains, bare[l]);
        forall i | 0 <= i < l
          ensures BlankedOne(ds[i], ds'[i], bare[i])
        {
          assert ds[i] == ds[..l][i] && ds'[i] == ds'[..l][i] && bare[i] == bare[..l][i];
        }
      }
    }
  }

  /** Blanked IDs do not reach the plan: the store is driven the same way. */
  lemma PlanBlind(parse: Parser, st: DesiredState, st': DesiredState, bare: seq<seq<bool>>, g: bool)
    requires Blanked(st.containers, st'.containers, bare) && st' == st.(containers := st'.containers)
    ensures PlanOf(parse, st', g) == PlanOf(parse, st, g)
  {
    forall i | 0 <= i < |st.containers|
      ensures ContainerTask(parse, st'.containers[i]) == ContainerTask(parse, st.containers[i])
    {
      var c, c' := st.containers[i], st'.containers[i];
      assert BlankedOne(c, c', bare[i]);
      assert MappingTasks(c', c'.customDomains) == MappingTasks(c, c.customDomains);
    }
    assert ContainerTasks(parse, st'.containers) == ContainerTasks(parse, st.containers);
  }

  // ----- The trace, minus the callbacks of blanked entries -----

  /** The requests whose mark is `which`, in order. */
  function Select(which: bool, ps: seq<Payload>, marks: seq<bool>): seq<Payload>
    requires |ps| == |marks|
  {
    if ps == [] then [] else (if marks[0] == which then [ps[0]] else []) + Select(which, ps[1..], marks[1..])
  }

  lemma SelectHead(which: bool, ps: seq<Payload>, ms: seq<bool>)
    requires |ps| == |ms|
    ensures Select(which, ps, ms) ==
            if ps == [] then [] else (if ms[0] == which then [ps[0]] else []) + Select(which, ps[1..], ms[1..])
  {
  }

  lemma {:induction false} SelectAppend(which: bool, ps: seq<Payload>, ms: seq<bool>, qs: seq<Payload>, ns: seq<bool>)
    requires |ps| == |ms| && |qs| == |ns|
    ensures Select(which, ps + qs, ms + ns) == Select(which, ps, ms) + Select(which, qs, ns)
    decreases |ps|
  {
    hide Select;
    SelectHead(which, ps, ms);
    if ps == [] {
      assert ps + qs == qs && ms + ns == ns;
      assert [] + Select(which, qs, ns) == Select(which, qs, ns);
    } else {
      SelectHead(which, ps + qs, ms + ns);
      assert (ps + qs)[1..] == ps[1..] + qs && (ms + ns)[1..] == ms[1..] + ns;
      SelectAppend(which, ps[1..], ms[1..], qs, ns);
    }
  }

  function Unmarked(n: nat): (r: seq<bool>)
    ensures |r| == n && forall i :: 0 <= i < n ==> !r[i]
  {
    if n == 0 then [] else [false] + Unmarked(n - 1)
  }

  lemma {:induction false} SelectUnmarked(which: bool, ps: seq<Payload>)
    ensures Select(which, ps, Unmarked(|ps|)) == if which then [] else ps
    decreases |ps|
  {
    if ps != [] {
      SelectUnmarked(which, ps[1..]);
    }
  }

  /** The marks of a container's callbacks: one per nonempty ID. */
  function DomainMarks(ds: seq<CustomDomain>, bare: seq<bool>): seq<bool>
    requires |ds| == |bare|
  {
    if ds == [] then []
    else DomainMarks(ds[..|ds| - 1], bare[..|ds| - 1]) + (if ds[|ds| - 1].id == "" then [] else [bare[|ds| - 1]])
  }

  function ContainerMarks(c: Container, n: Node, bare: seq<bool>): seq<bool>
    requires |c.customDomains| == |bare|
  {
    (if n.outcome.Err? then [] else DomainMarks(c.customDomains, bare)) + [false]
  }

  ghost predicate Fits(cs: seq<Container>, bare: seq<seq<bool>>) {
    |cs| == |bare| && forall i :: 0 <= i < |cs| ==> |cs[i].customDomains| == |bare[i]|
  }

  function AllMarks(cs: seq<Container>, ns: seq<Node>, bare: seq<seq<bool>>): seq<bool>
    requires |cs| == |ns| && Fits(cs, bare)
  {
    if cs == [] then []
    else
      var l := |cs| - 1;
      AllMarks(cs[..l], ns[..l], bare[..l]) + ContainerMarks(cs[l], ns[l], bare[l])
  }

  lemma SelectOne(which: bool, p: Payload, mark: bool)
    ensures Select(which, [p], [mark]) == if mark == which then [p] else []
  {
    assert [p][1..] == [] && [mark][1..] == [];
  }

  lemma {:induction false} DomainsBlanked(ds: seq<CustomDomain>, ds': seq<CustomDomain>, bare: seq<bool>, ns: seq<Node>)
    requires |ds| == |ds'| == |bare| == |ns|
    requires forall j :: 0 <= j < |ds| ==> ds'[j] == BareDomain(ds[j], bare[j])
    ensures |DomainMarks(ds, bare)| == |DomainReports(DomainStatuses(ds, ns))|
    ensures DomainReports(DomainStatuses(ds', ns)) ==
            Select(false, DomainReports(DomainStatuses(ds, ns)), DomainMarks(ds, bare))
    decreases |ds|
  {
    hide Select;
    if ds == [] {
      SelectUnmarked(false, []);
    } else {
      var l := |ds| - 1;
      DomainsBlanked(ds[..l], ds'[..l], bare[..l], ns[..l]);
      var q, k := Callback(ds[l], ns[l].outcome), if ds[l].id == "" then [] else [bare[l]];
      LastCallback(ds, ns);
      LastCallback(ds', ns);
      CallbackBlanked(ds[l], bare[l], ns[l].outcome);
      SelectAppend(false, DomainReports(DomainStatuses(ds[..l], ns[..l])), DomainMarks(ds[..l], bare[..l]), q, k);
    }
  }

  /** The callback of one entry, if it has an ID. */
  function Callback(d: CustomDomain, o: Outcome): seq<Payload> {
    var s := DomainStatusOf(d, o);
    if s.id == "" then [] else [DomainReport(s.id, s.status, s.error)]
  }

  lemma LastCallback(ds: seq<CustomDomain>, ns: seq<Node>)
    requires |ds| == |ns| && ds != []
    ensures DomainReports(DomainStatuses(ds, ns)) ==
            DomainReports(DomainStatuses(ds[..|ds| - 1], ns[..|ds| - 1])) + Callback(ds[|ds| - 1], ns[|ds| - 1].outcome)
  {
    hide DomainStatusOf;
    var l := |ds| - 1;
    var ss := DomainStatuses(ds, ns);
    assert ss[..l] == DomainStatuses(ds[..l], ns[..l]) && ss[l] == DomainStatusOf(ds[l], ns[l].outcome);
  }

  lemma CallbackBlanked(d: CustomDomain, bare: bool, o: Outcome)
    ensures |Callback(d, o)| == (if d.id == "" then 0 else 1)
    ensures Callback(BareDomain(d, bare), o) == Select(false, Callback(d, o), if d.id == "" then [] else [bare])
  {
    if d.id != "" {
      SelectOne(false, Callback(d, o)[0], bare);
    }
  }

  lemma ContainerBlanked(c: Container, c': Container, bare: seq<bool>, n: Node)
    requires BlankedOne(c, c', bare) && ContainerShaped(c, n)
    ensures |ContainerMarks(c, n, bare)| == |ContainerReport(c, n)| && ContainerShaped(c', n)
    ensures ContainerReport(c', n) == Select(false, ContainerReport(c, n), ContainerMarks(c, n, bare))
    ensures AgentReport(c', n) == AgentReport(c, n)
  {
    var r := [AgentReport(c, n)];
    SelectOne(false, r[0], false);
    if n.outcome.Ok? {
      DomainsBlanked(c.customDomains, c'.customDomains, bare, n.kids[1..]);
      SelectAppend(false, DomainReports(DomainStatuses(c.customDomains, n.kids[1..])),
                   DomainMarks(c.customDomains, bare), r, [false]);
    } else {
      SelectAppend(false, [], [], r, [false]);
    }
  }

  lemma {:induction false} ContainersBlanked(cs: seq<Container>, cs': seq<Container>, bare: seq<seq<bool>>,
                                             ns: seq<Node>)
    requires Blanked(cs, cs', bare) && AllShaped(cs, ns)
    ensures Fits(cs, bare) && AllShaped(cs', ns)
    ensures |AllMarks(cs, ns, bare)| == |ContainerReports(cs, ns)|
    ensures ContainerReports(cs', ns) == Select(false, ContainerReports(cs, ns), AllMarks(cs, ns, bare))
    ensures ReadyCount(cs', ns) == ReadyCount(cs, ns)
    decreases |cs|
  {
    hide ContainerReport, AgentReport, ContainerMarks;
    assert Fits(cs, bare);
    assert forall i :: 0 <= i < |cs| ==>
             BlankedOne(cs[i], cs'[i], bare[i]) && ContainerShaped(cs[i], ns[i]) && ContainerShaped(cs'[i], ns[i]);
    if cs != [] {
      var l := |cs| - 1;
      ContainersBlanked(cs[..l], cs'[..l], bare[..l], ns[..l]);
      ContainerBlanked(cs[l], cs'[l], bare[l], ns[l]);
      SelectAppend(false, ContainerReports(cs[..l], ns[..l]), AllMarks(cs[..l], ns[..l], bare[..l]),
                    ContainerReport(cs[l], ns[l]), ContainerMarks(cs[l], ns[l], bare[l]));
    }
  }

  // ----- What is marked -----

  /** The callbacks of the bared entries: hostname by hostname, what became of its mapping. */
  function BaredCallbacks(ds: seq<CustomDomain>, bare: seq<bool>, ns: seq<Node>): seq<Payload>
    requires |ds| == |bare| == |ns|
  {
    if ds == [] then []
    else
      var l := |ds| - 1;
      BaredCallbacks(ds[..l], bare[..l], ns[..l]) + if bare[l] then Callback(ds[l], ns[l].outcome) else []
  }

  /** Those of all containers whose Service was written. */
  function AllBaredCallbacks(cs: seq<Container>, ns: seq<Node>, bare: seq<seq<bool>>): seq<Payload>
    requires AllShaped(cs, ns) && Fits(cs, bare)
  {
    if cs == [] then []
    else
      var l := |cs| - 1;
      AllBaredCallbacks(cs[..l], ns[..l], bare[..l]) +
      if ns[l].outcome.Ok? then BaredCallbacks(cs[l].customDomains, bare[l], ns[l].kids[1..]) else []
  }

  lemma CallbackMarked(d: CustomDomain, bare: bool, o: Outcome)
    ensures |Callback(d, o)| == (if d.id == "" then 0 else 1)
    ensures Select(true, Callback(d, o), if d.id == "" then [] else [bare]) == if bare then Callback(d, o) else []
  {
    if d.id != "" {
      SelectOne(true, Callback(d, o)[0], bare);
    }
  }

  lemma {:induction false} DomainsMarked(ds: seq<CustomDomain>, bare: seq<bool>, ns: seq<Node>)
    requires |ds| == |bare| == |ns|
    ensures |DomainMarks(ds, bare)| == |DomainReports(DomainStatuses(ds, ns))|
    ensures Select(true, DomainReports(DomainStatuses(ds, ns)), DomainMarks(ds, bare)) == BaredCallbacks(ds, bare, ns)
    decreases |ds|
  {
    hide Select, Callback;
    if ds == [] {
      SelectUnmarked(true, []);
    } else {
      var l := |ds| - 1;
      DomainsMarked(ds[..l], bare[..l], ns[..l]);
      LastCallback(ds, ns);
      CallbackMarked(ds[l], bare[l], ns[l].outcome);
      SelectAppend(true, DomainReports(DomainStatuses(ds[..l], ns[..l])), DomainMarks(ds[..l], bare[..l]),
                 Callback(ds[l], ns[l].outcome), if ds[l].id == "" then [] else [bare[l]]);
    }
  }

  lemma ContainerMarked(c: Container, n: Node, bare: seq<bool>)
    requires ContainerShaped(c, n) && |c.customDomains| == |bare|
    ensures |ContainerMarks(c, n, bare)| == |ContainerReport(c, n)|
    ensures Select(true, ContainerReport(c, n), ContainerMarks(c, n, bare)) ==
            if n.outcome.Ok? then BaredCallbacks(c.customDomains, bare, n.kids[1..]) else []
  {
    hide Select, AgentReport, DomainReports, DomainStatuses;
    var r := [AgentReport(c, n)];
    SelectOne(true, r[0], false);
    if n.outcome.Ok? {
      DomainsMarked(c.customDomains, bare, n.kids[1..]);
      SelectAppend(true, DomainReports(DomainStatuses(c.customDomains, n.kids[1..])),
                   DomainMarks(c.customDomains, bare), r, [false]);
    } else {
      assert [] + r == r && [] + [false] == [false];
    }
  }

  lemma {:induction false} ContainersMarked(cs: seq<Container>, ns: seq<Node>, bare: seq<seq<bool>>)
    requires AllShaped(cs, ns) && Fits(cs, bare)
    ensures |AllMarks(cs, ns, bare)| == |ContainerReports(cs, ns)|
    ensures Select(true, ContainerReports(cs, ns), AllMarks(cs, ns, bare)) == AllBaredCallbacks(cs, ns, bare)
    decreases |cs|
  {
    hide ContainerReport, ContainerMarks, BaredCallbacks;
    if cs != [] {
      var l := |cs| - 1;
      ContainersMarked(cs[..l], ns[..l], bare[..l]);
      ContainerMarked(cs[l], ns[l], bare[l]);
      SelectAppend(true, ContainerReports(cs[..l], ns[..l]), AllMarks(cs[..l], ns[..l], bare[..l]),
                 ContainerReport(cs[l], ns[l]), ContainerMarks(cs[l], ns[l], bare[l]));
    }
  }

  /** Marked in a whole sync are exactly the callbacks of the bared entries. */
  lemma MarksAreCallbacks(st: DesiredState, ns: seq<Node>, bare: seq<seq<bool>>)
    requires PlanShaped(st, ns) && Fits(st.containers, bare)
    ensures
      var sent := [PullDesiredState] + SyncReports(st, ns);
      && |SyncMarks(st, ns, bare)| == |sent|
      && Select(true, sent, SyncMarks(st, ns, bare)) == AllBaredCallbacks(st.containers, ContainerNodes(st, ns), bare)
  {
    hide NamespaceReport, ContainerReports, AllMarks, SyncedCount, ReadyCount, AllShaped, Fits, Select, Unmarked,
         AllBaredCallbacks;
    var nn, cn := NamespaceNodes(st, ns), ContainerNodes(st, ns);
    var a := [PullDesiredState] + NamespaceReports(st.namespaces, nn);
    var b, m := ContainerReports(st.containers, cn), AllMarks(st.containers, cn, bare);
    var z := [ClusterStatus("reachable", SyncedCount(st.namespaces, nn), ReadyCount(st.containers, cn))];
    ContainersMarked(st.containers, cn, bare);
    assert [PullDesiredState] + SyncReports(st, ns) == a + b + z;
    SelectAppend(true, a, Unmarked(|a|), b, m);
    SelectAppend(true, a + b, Unmarked(|a|) + m, z, Unmarked(1));
    SelectUnmarked(true, a);
    SelectUnmarked(true, z);
  }

  /** The marks of a whole sync: nothing but callbacks of blanked entries. */
  function SyncMarks(st: DesiredState, ns: seq<Node>, bare: seq<seq<bool>>): seq<bool>
    requires PlanShaped(st, ns) && Fits(st.containers, bare)
  {
    Unmarked(1 + |st.namespaces|) + AllMarks(st.containers, ContainerNodes(st, ns), bare) + Unmarked(1)
  }

  /**
   Rollout compatibility. Replacing any entries by bare hostnames leaves decodability, the final
   store and the trace unchanged, except that requests are missing: exactly the callbacks of those
   entries, where the container's Service was written and the entry had an ID.
   */
  lemma RolloutCompatible(x: Outside, w: World, nss: seq<Namespace>, allowed: seq<string>, gatekeeper: Option<bool>,
                          cs: seq<WireContainer>, cs': seq<WireContainer>, bare: seq<seq<bool>>)
    requires AllBared(cs, cs', bare)
    ensures DecodeContainers(cs').Some? <==> DecodeContainers(cs).Some?
    ensures DecodeContainers(cs).Some? ==>
      var st := DesiredState(nss, DecodeContainers(cs).value, allowed);
      var st' := DesiredState(nss, DecodeContainers(cs').value, allowed);
      var s, s' := Sync(x, w, Some(st), gatekeeper), Sync(x, w, Some(st'), gatekeeper);
      var ns := Run(x, w, PlanOf(x.parse, st, gatekeeper == Some(true))).1;
      && s'.world == s.world
      && PlanShaped(st, ns) && Fits(st.containers, bare)
      && |SyncMarks(st, ns, bare)| == |s.sent|
      && s'.sent == Select(false, s.sent, SyncMarks(st, ns, bare))
      && Select(true, s.sent, SyncMarks(st, ns, bare)) == AllBaredCallbacks(st.containers, ContainerNodes(st, ns), bare)
  {
    hide Run, PlanOf, NamespaceReports, ContainerReports, AllMarks, SyncedCount, ReadyCount, AllBared, Blanked,
         AllShaped, Fits, DecodeContainers, Sync, SyncReports, SyncMarks, Select, AllBaredCallbacks;
    AllBaredDecode(cs, cs', bare);
    if DecodeContainers(cs).Some? {
      var st := DesiredState(nss, DecodeContainers(cs).value, allowed);
      var st' := DesiredState(nss, DecodeContainers(cs').value, allowed);
      var g := gatekeeper == Some(true);
      PlanBlind(x.parse, st, st', bare, g);
      SyncIsRun(x, w, st, gatekeeper);
      SyncIsRun(x, w, st', gatekeeper);
      var ns := Run(x, w, PlanOf(x.parse, st, g)).1;
      SameNumber(st.containers, st'.containers, bare);
      ContainersBlanked(st.containers, st'.containers, bare, ContainerNodes(st, ns));
      TraceBlanked(st, st', ns, bare);
      MarksAreCallbacks(st, ns, bare);
    }
  }

  lemma SameNumber(cs: seq<Container>, cs': seq<Container>, bare: seq<seq<bool>>)
    requires Blanked(cs, cs', bare)
    ensures |cs| == |cs'|
  {
  }

  lemma TraceBlanked(st: DesiredState, st': DesiredState, ns: seq<Node>, bare: seq<seq<bool>>)
    requires PlanShaped(st, ns) && PlanShaped(st', ns) && Fits(st.containers, bare)
    requires st' == st.(containers := st'.containers) && |st'.containers| == |st.containers|
    requires var cn := ContainerNodes(st, ns);
             && |AllMarks(st.containers, cn, bare)| == |ContainerReports(st.containers, cn)|
             && ContainerReports(st'.containers, cn) ==
                  Select(false, ContainerReports(st.containers, cn), AllMarks(st.containers, cn, bare))
             && ReadyCount(st'.containers, cn) == ReadyCount(st.containers, cn)
    ensures var sent, sent' := [PullDesiredState] + SyncReports(st, ns), [PullDesiredState] + SyncReports(st', ns);
            |SyncMarks(st, ns, bare)| == |sent| && sent' == Select(false, sent, SyncMarks(st, ns, bare))
  {
    hide NamespaceReport, ContainerReports, AllMarks, SyncedCount, ReadyCount, AllShaped, Fits, Select, Unmarked;
    var nn, cn := NamespaceNodes(st, ns), ContainerNodes(st, ns);
    var a := [PullDesiredState] + NamespaceReports(st.namespaces, nn);
    var b, m := ContainerReports(st.containers, cn), AllMarks(st.containers, cn, bare);
    var z := [ClusterStatus("reachable", SyncedCount(st.namespaces, nn), ReadyCount(st.containers, cn))];
    assert [PullDesiredState] + SyncReports(st, ns) == a + b + z;
    assert [PullDesiredState] + SyncReports(st', ns) == a + ContainerReports(st'.containers, cn) + z;
    SelectAppend(false, a, Unmarked(|a|), b, m);
    SelectAppend(false, a + b, Unmarked(|a|) + m, z, Unmarked(1));
    SelectUnmarked(false, a);
    SelectUnmarked(false, z);
  }
}
