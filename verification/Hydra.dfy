/** The control plane's side: desired state, the requests the operator sends, and the client that sends them. */
module Hydra {
  import opened Prelude
  import opened ApiServer

  datatype Quotas = Quotas(
    limitsCPU: string,
    limitsMemory: string,
    requestsCPU: string,
    requestsMemory: string,
    countPods: int)

  datatype Namespace = Namespace(id: string, k8sName: string, mode: string, quotas: Quotas)

  datatype EnvVar = EnvVar(name: string, value: string, secretRef: string, secretKey: string)
  datatype PortSpec = PortSpec(name: string, containerPort: int, protocol: string)

  datatype Definition = Definition(
    image: string,
    cpuLimit: string,
    memoryLimit: string,
    env: seq<EnvVar>,
    ports: seq<PortSpec>,
    healthCheckPath: string)

  datatype Scaling = Scaling(minScale: int, maxScale: int, concurrencyTarget: int)
  datatype Traffic = Traffic(revisionName: string, percent: int)
  datatype CustomDomain = CustomDomain(id: string, hostname: string)

  datatype Container = Container(
    id: string,
    namespaceK8sName: string,
    definition: Definition,
    scaling: Scaling,
    traffic: seq<Traffic>,
    restartGeneration: int,
    runtimeClassName: string,
    customDomains: seq<CustomDomain>,
    needsOpenShiftRoute: bool)

  datatype DesiredState = DesiredState(
    namespaces: seq<Namespace>,
    containers: seq<Container>,
    allowedRegistries: seq<string>)

  /** An error as the reconcilers wrap it: what was being done, and the API's answer. */
  datatype OpError = OpError(context: string, cause: ApiError)

  datatype DomainError = NoError | NotYetReady | Failure(cause: ApiError)

  /** What capability detection finds; `capabilities` is None if they cannot be marshalled. */
  datatype Detection = Detection(k8sVersion: string, nodeCount: int, capabilities: Option<string>)

  datatype Payload =
    | Register(registrationToken: string)
    | Heartbeat(operatorVersion: string, k8sVersion: string, nodeCount: int, capabilities: string)
    | PullDesiredState
    | ClusterStatus(status: string, namespacesSynced: nat, containersReady: nat)
    | NamespaceStatus(id: string, syncStatus: string, syncError: Option<OpError>)
    | AgentStatus(
        id: string,
        status: string,
        readyReplicas: nat,
        endpoint: string,
        activeRevision: string,
        revisions: seq<string>)
    | DomainReport(id: string, status: string, error: DomainError)

  /** A request on the wire; `bearer` is the Authorization header, absent on registration only. */
  datatype Request = Request(bearer: Option<string>, payload: Payload)

  /** The heartbeat that a detection leads to; `detected` is None if it fails. */
  function HeartbeatOf(operatorVersion: string, detected: Option<Detection>): seq<Payload> {
    if detected.None? || detected.value.capabilities.None? then []
    else
      var d := detected.value;
      [Heartbeat(operatorVersion, d.k8sVersion, d.nodeCount, d.capabilities.value)]
  }

  function Signed(token: string, ps: seq<Payload>): (r: seq<Request>)
    ensures |r| == |ps|
    ensures forall i :: 0 <= i < |ps| ==> r[i] == Request(Some(token), ps[i])
  {
    if ps == [] then [] else [Request(Some(token), ps[0])] + Signed(token, ps[1..])
  }

  lemma SignedAppend(token: string, ps: seq<Payload>, qs: seq<Payload>)
    ensures Signed(token, ps + qs) == Signed(token, ps) + Signed(token, qs)
  {
  }

  // ----- Two loops on one client -----

  /** The requests ps of one loop, with what the other loop sends just before each; n counts the loop's turns. */
  function Woven(other: nat -> seq<Payload>, n: nat, ps: seq<Payload>): seq<Payload>
    decreases |ps|
  {
    if ps == [] then [] else other(n) + [ps[0]] + Woven(other, n + 1, ps[1..])
  }

  lemma {:induction false} WovenAppend(other: nat -> seq<Payload>, n: nat, ps: seq<Payload>, qs: seq<Payload>)
    ensures Woven(other, n, ps + qs) == Woven(other, n, ps) + Woven(other, n + |ps|, qs)
    decreases |ps|
  {
    if ps == [] {
      assert ps + qs == qs;
    } else {
      assert (ps + qs)[1..] == ps[1..] + qs;
      WovenAppend(other, n + 1, ps[1..], qs);
    }
  }

  lemma WovenOne(other: nat -> seq<Payload>, n: nat, p: Payload)
    ensures Woven(other, n, [p]) == other(n) + [p]
  {
    assert [p][1..] == [];
  }

  /** The wire and the turn count of a client. */
  type Line = (seq<Request>, nat)

  /** From a to b one loop sends ps under the token, the other loop's requests in between. */
  ghost predicate Issues(token: string, other: nat -> seq<Payload>, a: Line, b: Line, ps: seq<Payload>) {
    b.1 == a.1 + |ps| && b.0 == a.0 + Signed(token, Woven(other, a.1, ps))
  }

  lemma IssuesNone(token: string, other: nat -> seq<Payload>, a: Line)
    ensures Issues(token, other, a, a, [])
  {
  }

  lemma JoinedTwice<T>(a: seq<T>, b: seq<T>, c: seq<T>)
    ensures a + b + c == a + (b + c)
  {
  }

  lemma IssuesThen(token: string, other: nat -> seq<Payload>, a: Line, b: Line, c: Line,
                   ps: seq<Payload>, qs: seq<Payload>)
    requires Issues(token, other, a, b, ps) && Issues(token, other, b, c, qs)
    ensures Issues(token, other, a, c, ps + qs)
  {
    hide Woven, Signed;
    var x, y := Woven(other, a.1, ps), Woven(other, b.1, qs);
    WovenAppend(other, a.1, ps, qs);
    SignedAppend(token, x, y);
    JoinedTwice(a.0, Signed(token, x), Signed(token, y));
  }

  /**
   The HTTP client: the current cluster token and the requests issued so far. The manager's two loops
   share it: `other` is what the heartbeat loop sends just before each turn of the sync loop.
   */
  class Client {
    var token: string
    var sent: seq<Request>
    var turn: nat
    const other: nat -> seq<Payload>

    constructor (other: nat -> seq<Payload>)
      ensures token == "" && sent == [] && turn == 0 && this.other == other
    {
      token, sent, turn := "", [], 0;
      this.other := other;
    }

    function State(): Line
      reads this
    {
      (sent, turn)
    }

    ghost predicate Issued(from: Line, ps: seq<Payload>)
      reads this
    {
      Issues(token, other, from, State(), ps)
    }

    method SetToken(t: string)
      modifies this
      ensures token == t && sent == old(sent) && turn == old(turn)
    {
      token := t;
    }

    /** One request. Whether the reply is a success is the network's choice. */
    method Issue(p: Payload, authed: bool) returns (ok: bool)
      modifies this
      ensures token == old(token) && turn == old(turn)
      ensures sent == old(sent) + [Request(if authed then Some(token) else None, p)]
    {
      sent := sent + [Request(if authed then Some(token) else None, p)];
      ok := *;
    }

    /** One authenticated request of the sync loop. */
    method Send(p: Payload) returns (ok: bool)
      modifies this
      ensures token == old(token) && Issued(old(State()), [p])
    {
      ghost var from := State();
      Idle();
      ok := Issue(p, true);
      WovenOne(other, from.1, p);
      SignedAppend(token, other(from.1), [p]);
    }

    /** A turn in which the sync loop waits. */
    method Idle()
      modifies this
      ensures token == old(token) && turn == old(turn) + 1
      ensures sent == old(sent) + Signed(token, other(old(turn)))
    {
      sent := sent + Signed(token, other(turn));
      turn := turn + 1;
    }

    /** Exchange the registration token; `reply` is the cluster token answered, None if the call fails. */
    method RegisterCluster(registrationToken: string, reply: Option<string>) returns (t: Option<string>)
      modifies this
      ensures t == reply && turn == old(turn)
      ensures sent == old(sent) + [Request(None, Register(registrationToken))]
      ensures token == (if reply.Some? then reply.value else old(token))
    {
      var _ := Issue(Register(registrationToken), false);
      if reply.Some? {
        token := reply.value;
      }
      t := reply;
    }
  }
}
