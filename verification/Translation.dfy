/** From a desired container to its Knative Service, and from a namespace's quotas to its hard limits. */
module Translation {
  import opened Prelude
  import opened Objects
  import opened Hydra
  import opened Decimal

  const MANAGED_BY := map["app.kubernetes.io/managed-by" := "hydra-operator"]
  const RESTART_KEY := "hydra.io/restart-generation"
  const MIN_SCALE_KEY := "autoscaling.knative.dev/min-scale"
  const MAX_SCALE_KEY := "autoscaling.knative.dev/max-scale"

  function AgentLabels(id: string): Labels {
    MANAGED_BY["hydra.io/agent-id" := id]
  }

  function EntryOf(e: EnvVar): EnvEntry {
    EnvEntry(e.name,
      if e.secretRef != "" then FromSecret(e.secretRef, if e.secretKey != "" then e.secretKey else e.name)
      else Plain(e.value))
  }

  function PortOf(p: PortSpec): ContainerPort {
    ContainerPort(p.name, p.containerPort, p.protocol)
  }

  function TargetOf(t: Traffic): TrafficTarget {
    TrafficTarget(None, t.revisionName, Some(t.percent))
  }

  function TrafficOf(ts: seq<Traffic>): seq<TrafficTarget> {
    if ts == [] then [TrafficTarget(Some(true), "", Some(100))] else Map(TargetOf, ts)
  }

  /** The quantity a limit stands for: none if it is empty or does not parse. */
  function Limit(parse: string -> Option<Quantity>, value: string): Option<Quantity> {
    if value == "" then None else parse(value)
  }

  function WithLimit(m: map<string, Quantity>, name: string, q: Option<Quantity>): map<string, Quantity> {
    if q.Some? then m[name := q.value] else m
  }

  function LimitsOf(parse: string -> Option<Quantity>, cpu: string, memory: string): map<string, Quantity> {
    WithLimit(WithLimit(map[], "cpu", Limit(parse, cpu)), "memory", Limit(parse, memory))
  }

  function HardOf(parse: string -> Option<Quantity>, q: Quotas): map<string, Quantity> {
    var m := WithLimit(map[], "limits.cpu", Limit(parse, q.limitsCPU));
    var m := WithLimit(m, "limits.memory", Limit(parse, q.limitsMemory));
    var m := WithLimit(m, "requests.cpu", Limit(parse, q.requestsCPU));
    var m := WithLimit(m, "requests.memory", Limit(parse, q.requestsMemory));
    if q.countPods > 0 then m["pods" := Count(q.countPods)] else m
  }

  function Positive(n: int): Option<int> {
    if n > 0 then Some(n) else None
  }

  function Nonempty(s: string): Option<string> {
    if s == "" then None else Some(s)
  }

  function WithScale(a: Labels, key: string, n: int): Labels {
    if n > 0 then a[key := Itoa(n)] else a
  }

  function PodOf(parse: string -> Option<Quantity>, d: Definition): PodContainer {
    PodContainer(
      d.image,
      Map(EntryOf, d.env),
      Map(PortOf, d.ports),
      LimitsOf(parse, d.cpuLimit, d.memoryLimit),
      LimitsOf(parse, d.cpuLimit, d.memoryLimit),
      Nonempty(d.healthCheckPath),
      None)
  }

  function TemplateOf(parse: string -> Option<Quantity>, c: Container): RevisionTemplate {
    RevisionTemplate(
      WithScale(WithScale(map[RESTART_KEY := Itoa(c.restartGeneration)], MIN_SCALE_KEY, c.scaling.minScale),
                MAX_SCALE_KEY, c.scaling.maxScale),
      PodOf(parse, c.definition),
      Nonempty(c.runtimeClassName),
      Positive(c.scaling.concurrencyTarget))
  }

  function ServiceOf(parse: string -> Option<Quantity>, c: Container): Obj {
    Fresh(ServiceSpec(TemplateOf(parse, c), TrafficOf(c.traffic)), AgentLabels(c.id))
  }

  // ----- What is asked for, field by field -----

  /** m has the entry exactly if the value is given and parses, and then it is the parsed value. */
  ghost predicate HoldsQuantity(parse: string -> Option<Quantity>, m: map<string, Quantity>, name: string,
                                value: string) {
    && (name in m <==> value != "" && parse(value).Some?)
    && (name in m ==> parse(value) == Some(m[name]))
  }

  ghost predicate LimitsAsAsked(parse: string -> Option<Quantity>, m: map<string, Quantity>, cpu: string,
                                memory: string) {
    && m.Keys <= {"cpu", "memory"}
    && HoldsQuantity(parse, m, "cpu", cpu)
    && HoldsQuantity(parse, m, "memory", memory)
  }

  ghost predicate QuotaAsAsked(parse: string -> Option<Quantity>, m: map<string, Quantity>, q: Quotas) {
    && m.Keys <= {"limits.cpu", "limits.memory", "requests.cpu", "requests.memory", "pods"}
    && HoldsQuantity(parse, m, "limits.cpu", q.limitsCPU)
    && HoldsQuantity(parse, m, "limits.memory", q.limitsMemory)
    && HoldsQuantity(parse, m, "requests.cpu", q.requestsCPU)
    && HoldsQuantity(parse, m, "requests.memory", q.requestsMemory)
    && ("pods" in m <==> q.countPods > 0)
    && ("pods" in m ==> m["pods"] == Count(q.countPods))
  }

  /** A literal, or a key of a Secret that defaults to the variable's name. */
  ghost predicate EnvAsAsked(e: EnvVar, v: EnvEntry) {
    && v.name == e.name
    && (e.secretRef == "" ==> v.source == Plain(e.value))
    && (e.secretRef != "" && e.secretKey == "" ==> v.source == FromSecret(e.secretRef, e.name))
    && (e.secretRef != "" && e.secretKey != "" ==> v.source == FromSecret(e.secretRef, e.secretKey))
  }

  ghost predicate EnvsAsAsked(es: seq<EnvVar>, vs: seq<EnvEntry>) {
    |vs| == |es| && forall i :: 0 <= i < |es| ==> EnvAsAsked(es[i], vs[i])
  }

  ghost predicate PortsAsAsked(ps: seq<PortSpec>, qs: seq<ContainerPort>) {
    |qs| == |ps| && forall i :: 0 <= i < |ps| ==>
        qs[i] == ContainerPort(ps[i].name, ps[i].containerPort, ps[i].protocol)
  }

  ghost predicate TrafficAsAsked(ts: seq<Traffic>, rs: seq<TrafficTarget>) {
    if ts == [] then rs == [TrafficTarget(Some(true), "", Some(100))]
    else
      && |rs| == |ts|
      && forall i :: 0 <= i < |ts| ==> rs[i] == TrafficTarget(None, ts[i].revisionName, Some(ts[i].percent))
  }

  /** The annotation is there exactly if the number is positive, and then it is its decimal. */
  ghost predicate ScaleAsAsked(a: Labels, key: string, n: int) {
    (key in a <==> n > 0) && (key in a ==> Writes(a[key], n))
  }

  ghost predicate AnnotationsAsAsked(c: Container, a: Labels) {
    && a.Keys <= {"hydra.io/restart-generation", "autoscaling.knative.dev/min-scale",
                  "autoscaling.knative.dev/max-scale"}
    && "hydra.io/restart-generation" in a && Writes(a["hydra.io/restart-generation"], c.restartGeneration)
    && ScaleAsAsked(a, "autoscaling.knative.dev/min-scale", c.scaling.minScale)
    && ScaleAsAsked(a, "autoscaling.knative.dev/max-scale", c.scaling.maxScale)
  }

  ghost predicate PodAsAsked(parse: string -> Option<Quantity>, d: Definition, p: PodContainer) {
    && p.image == d.image
    && EnvsAsAsked(d.env, p.env)
    && PortsAsAsked(d.ports, p.ports)
    && LimitsAsAsked(parse, p.limits, d.cpuLimit, d.memoryLimit)
    && LimitsAsAsked(parse, p.requests, d.cpuLimit, d.memoryLimit)
    && (if d.healthCheckPath == "" then p.readinessPath == None else p.readinessPath == Some(d.healthCheckPath))
    && p.security == None
  }

  ghost predicate SpecAsAsked(parse: string -> Option<Quantity>, c: Container, spec: Spec) {
    && spec.ServiceSpec?
    && AnnotationsAsAsked(c, spec.template.annotations)
    && PodAsAsked(parse, c.definition, spec.template.container)
    && (if c.runtimeClassName == "" then spec.template.runtimeClass == None
        else spec.template.runtimeClass == Some(c.runtimeClassName))
    && (if c.scaling.concurrencyTarget > 0 then spec.template.concurrency == Some(c.scaling.concurrencyTarget)
        else spec.template.concurrency == None)
    && TrafficAsAsked(c.traffic, spec.traffic)
  }

  ghost predicate LabelsAsAsked(c: Container, labels: Labels) {
    labels == map["app.kubernetes.io/managed-by" := "hydra-operator", "hydra.io/agent-id" := c.id]
  }

  lemma LimitsAreAsAsked(parse: string -> Option<Quantity>, cpu: string, memory: string)
    ensures LimitsAsAsked(parse, LimitsOf(parse, cpu, memory), cpu, memory)
  {
    assert "cpu" != "memory";
  }

  lemma HardIsAsAsked(parse: string -> Option<Quantity>, q: Quotas)
    ensures QuotaAsAsked(parse, HardOf(parse, q), q)
  {
    assert |"limits.cpu"| == 10 && |"limits.memory"| == 13 && |"requests.cpu"| == 12 && |"requests.memory"| == 15;
    assert |"pods"| == 4;
  }

  lemma EnvIsAsAsked(es: seq<EnvVar>)
    ensures EnvsAsAsked(es, Map(EntryOf, es))
  {
  }

  lemma TrafficIsAsAsked(ts: seq<Traffic>)
    ensures TrafficAsAsked(ts, TrafficOf(ts))
  {
  }

  lemma AnnotationsAreAsAsked(c: Container)
    ensures
      var a := WithScale(WithScale(map[RESTART_KEY := Itoa(c.restartGeneration)], MIN_SCALE_KEY, c.scaling.minScale),
                         MAX_SCALE_KEY, c.scaling.maxScale);
      AnnotationsAsAsked(c, a)
  {
    hide Itoa, Writes;
    assert RESTART_KEY[0] != MIN_SCALE_KEY[0] && RESTART_KEY[0] != MAX_SCALE_KEY[0];
    assert MIN_SCALE_KEY[|MIN_SCALE_KEY| - 7] == 'n' && MAX_SCALE_KEY[|MAX_SCALE_KEY| - 7] == 'x';
    ItoaWrites(c.restartGeneration);
    ItoaWrites(c.scaling.minScale);
    ItoaWrites(c.scaling.maxScale);
  }

  /** The Service that a container translates to is what the container asks for. */
  lemma ServiceIsAsAsked(parse: string -> Option<Quantity>, c: Container)
    ensures var o := ServiceOf(parse, c);
            && SpecAsAsked(parse, c, o.spec) && LabelsAsAsked(c, o.labels)
            && o.annotations == map[] && o.status == BLANK_STATUS
  {
    hide Map, LimitsOf, WithScale, TrafficOf, AnnotationsAsAsked, LimitsAsAsked, EnvsAsAsked, TrafficAsAsked;
    LimitsAreAsAsked(parse, c.definition.cpuLimit, c.definition.memoryLimit);
    EnvIsAsAsked(c.definition.env);
    TrafficIsAsAsked(c.traffic);
    AnnotationsAreAsAsked(c);
  }

  // ----- The builders as the source writes them -----

  /** A resource list under construction. */
  class ResourceList {
    var entries: map<string, Quantity>

    constructor ()
      ensures entries == map[]
    {
      entries := map[];
    }

    method SetQuantity(parse: string -> Option<Quantity>, name: string, value: string)
      modifies this
      ensures entries == (if value != "" && parse(value).Some? then old(entries)[name := parse(value).value]
                          else old(entries))
    {
      if value == "" {
        return;
      }
      var q := parse(value);
      if q.Some? {
        entries := entries[name := q.value];
      }
    }
  }

  method BuildResourceList(parse: string -> Option<Quantity>, cpu: string, memory: string)
    returns (m: map<string, Quantity>)
    ensures m == LimitsOf(parse, cpu, memory) && LimitsAsAsked(parse, m, cpu, memory)
  {
    LimitsAreAsAsked(parse, cpu, memory);
    var list := new ResourceList();
    list.SetQuantity(parse, "cpu", cpu);
    list.SetQuantity(parse, "memory", memory);
    m := list.entries;
  }

  method BuildEnv(env: seq<EnvVar>) returns (out: seq<EnvEntry>)
    ensures out == Map(EntryOf, env) && EnvsAsAsked(env, out)
  {
    hide Map;
    EnvIsAsAsked(env);
    out := [];
    for i := 0 to |env|
      invariant out == Map(EntryOf, env[..i])
    {
      var e := env[i];
      var v: EnvEntry;
      if e.secretRef != "" {
        var key := e.name;
        if e.secretKey != "" {
          key := e.secretKey;
        }
        v := EnvEntry(e.name, FromSecret(e.secretRef, key));
      } else {
        v := EnvEntry(e.name, Plain(e.value));
      }
      MapExtend(EntryOf, env, i);
      out := out + [v];
    }
    assert env[..|env|] == env;
  }

  method BuildPorts(ports: seq<PortSpec>) returns (out: seq<ContainerPort>)
    ensures out == Map(PortOf, ports) && PortsAsAsked(ports, out)
  {
    hide Map;
    out := [];
    for i := 0 to |ports|
      invariant out == Map(PortOf, ports[..i])
    {
      var cp := ContainerPort(ports[i].name, ports[i].containerPort, "");
      if ports[i].protocol != "" {
        cp := cp.(protocol := ports[i].protocol);
      }
      MapExtend(PortOf, ports, i);
      out := out + [cp];
    }
    assert ports[..|ports|] == ports;
  }

  method BuildTraffic(traffic: seq<Traffic>) returns (out: seq<TrafficTarget>)
    ensures out == TrafficOf(traffic) && TrafficAsAsked(traffic, out)
  {
    hide Map;
    TrafficIsAsAsked(traffic);
    if |traffic| == 0 {
      return [TrafficTarget(Some(true), "", Some(100))];
    }
    out := [];
    for i := 0 to |traffic|
      invariant out == Map(TargetOf, traffic[..i])
    {
      MapExtend(TargetOf, traffic, i);
      out := out + [TrafficTarget(None, traffic[i].revisionName, Some(traffic[i].percent))];
    }
    assert traffic[..|traffic|] == traffic;
  }

  method BuildService(parse: string -> Option<Quantity>, c: Container) returns (o: Obj)
    ensures o == ServiceOf(parse, c)
    ensures SpecAsAsked(parse, c, o.spec) && LabelsAsAsked(c, o.labels) && o.annotations == map[]
  {
    hide SpecAsAsked, LimitsAsAsked, EnvsAsAsked, PortsAsAsked, TrafficAsAsked;
    ServiceIsAsAsked(parse, c);
    var env := BuildEnv(c.definition.env);
    var ports := BuildPorts(c.definition.ports);
    var limits := BuildResourceList(parse, c.definition.cpuLimit, c.definition.memoryLimit);
    var requests := BuildResourceList(parse, c.definition.cpuLimit, c.definition.memoryLimit);
    var container := PodContainer(c.definition.image, env, ports, limits, requests, None, None);
    if c.definition.healthCheckPath != "" {
      container := container.(readinessPath := Some(c.definition.healthCheckPath));
    }
    var annotations := map[RESTART_KEY := Itoa(c.restartGeneration)];
    if c.scaling.minScale > 0 {
      annotations := annotations[MIN_SCALE_KEY := Itoa(c.scaling.minScale)];
    }
    if c.scaling.maxScale > 0 {
      annotations := annotations[MAX_SCALE_KEY := Itoa(c.scaling.maxScale)];
    }
    var concurrency: Option<int> := None;
    if c.scaling.concurrencyTarget > 0 {
      concurrency := Some(c.scaling.concurrencyTarget);
    }
    var runtimeClass := if c.runtimeClassName == "" then None else Some(c.runtimeClassName);
    var traffic := BuildTraffic(c.traffic);
    o := Obj(
      ServiceSpec(RevisionTemplate(annotations, container, runtimeClass, concurrency), traffic),
      map["app.kubernetes.io/managed-by" := "hydra-operator", "hydra.io/agent-id" := c.id],
      map[],
      BLANK_STATUS);
  }

  // ----- What the translation distinguishes -----

  /** The value a variable takes in the container: a literal, or a key of a Secret. */
  ghost predicate SameValue(e: EnvVar, f: EnvVar) {
    && e.name == f.name
    && (e.secretRef == "" <==> f.secretRef == "")
    && (e.secretRef == "" ==> e.value == f.value)
    && (e.secretRef != "" ==>
          && e.secretRef == f.secretRef
          && (if e.secretKey == "" then e.name else e.secretKey) == (if f.secretKey == "" then f.name else f.secretKey))
  }

  /** Two containers that ask for the same revision. */
  ghost predicate SameRevision(parse: string -> Option<Quantity>, c: Container, d: Container) {
    && c.definition.image == d.definition.image
    && |c.definition.env| == |d.definition.env|
    && (forall i :: 0 <= i < |c.definition.env| ==> SameValue(c.definition.env[i], d.definition.env[i]))
    && c.definition.ports == d.definition.ports
    && Limit(parse, c.definition.cpuLimit) == Limit(parse, d.definition.cpuLimit)
    && Limit(parse, c.definition.memoryLimit) == Limit(parse, d.definition.memoryLimit)
    && c.definition.healthCheckPath == d.definition.healthCheckPath
    && c.restartGeneration == d.restartGeneration
    && c.runtimeClassName == d.runtimeClassName
    && Positive(c.scaling.minScale) == Positive(d.scaling.minScale)
    && Positive(c.scaling.maxScale) == Positive(d.scaling.maxScale)
    && Positive(c.scaling.concurrencyTarget) == Positive(d.scaling.concurrencyTarget)
  }

  lemma MapInjective<A(!new), B>(f: A -> B, s: seq<A>, t: seq<A>)
    ensures Map(f, s) == Map(f, t) <==> |s| == |t| && forall i :: 0 <= i < |s| ==> f(s[i]) == f(t[i])
  {
    if |s| == |t| && forall i :: 0 <= i < |s| ==> f(s[i]) == f(t[i]) {
      assert forall i :: 0 <= i < |s| ==> Map(f, s)[i] == Map(f, t)[i];
    }
  }

  lemma EnvKernel(e: EnvVar, f: EnvVar)
    ensures EntryOf(e) == EntryOf(f) <==> SameValue(e, f)
  {
  }

  lemma LimitsKernel(parse: string -> Option<Quantity>, cpu: string, memory: string, cpu': string, memory': string)
    ensures LimitsOf(parse, cpu, memory) == LimitsOf(parse, cpu', memory') <==>
            Limit(parse, cpu) == Limit(parse, cpu') && Limit(parse, memory) == Limit(parse, memory')
  {
    var m, m' := LimitsOf(parse, cpu, memory), LimitsOf(parse, cpu', memory');
    assert "cpu" != "memory";
    assert "cpu" in m <==> Limit(parse, cpu).Some?;
    assert "cpu" in m' <==> Limit(parse, cpu').Some?;
    assert "memory" in m <==> Limit(parse, memory).Some?;
    assert "memory" in m' <==> Limit(parse, memory').Some?;
    assert "cpu" in m ==> m["cpu"] == Limit(parse, cpu).value;
    assert "cpu" in m' ==> m'["cpu"] == Limit(parse, cpu').value;
  }

  lemma AnnotationsKernel(c: Container, d: Container)
    ensures
      var a := WithScale(WithScale(map[RESTART_KEY := Itoa(c.restartGeneration)], MIN_SCALE_KEY, c.scaling.minScale),
                         MAX_SCALE_KEY, c.scaling.maxScale);
      var b := WithScale(WithScale(map[RESTART_KEY := Itoa(d.restartGeneration)], MIN_SCALE_KEY, d.scaling.minScale),
                         MAX_SCALE_KEY, d.scaling.maxScale);
      a == b <==>
        && c.restartGeneration == d.restartGeneration
        && Positive(c.scaling.minScale) == Positive(d.scaling.minScale)
        && Positive(c.scaling.maxScale) == Positive(d.scaling.maxScale)
  {
    var a := WithScale(WithScale(map[RESTART_KEY := Itoa(c.restartGeneration)], MIN_SCALE_KEY, c.scaling.minScale),
                       MAX_SCALE_KEY, c.scaling.maxScale);
    var b := WithScale(WithScale(map[RESTART_KEY := Itoa(d.restartGeneration)], MIN_SCALE_KEY, d.scaling.minScale),
                       MAX_SCALE_KEY, d.scaling.maxScale);
    assert RESTART_KEY[0] != MIN_SCALE_KEY[0] && RESTART_KEY[0] != MAX_SCALE_KEY[0];
    assert MIN_SCALE_KEY[|MIN_SCALE_KEY| - 7] == 'n' && MAX_SCALE_KEY[|MAX_SCALE_KEY| - 7] == 'x';
    assert a[RESTART_KEY] == Itoa(c.restartGeneration) && b[RESTART_KEY] == Itoa(d.restartGeneration);
    assert MIN_SCALE_KEY in a <==> c.scaling.minScale > 0;
    assert MIN_SCALE_KEY in b <==> d.scaling.minScale > 0;
    assert MAX_SCALE_KEY in a <==> c.scaling.maxScale > 0;
    assert MAX_SCALE_KEY in b <==> d.scaling.maxScale > 0;
    ItoaInjective(c.restartGeneration, d.restartGeneration);
    ItoaInjective(c.scaling.minScale, d.scaling.minScale);
    ItoaInjective(c.scaling.maxScale, d.scaling.maxScale);
  }

  /** The exact kernel: the revision templates are equal precisely when the same revision is asked for. */
  lemma TemplateKernel(parse: string -> Option<Quantity>, c: Container, d: Container)
    ensures TemplateOf(parse, c) == TemplateOf(parse, d) <==> SameRevision(parse, c, d)
  {
    MapInjective(EntryOf, c.definition.env, d.definition.env);
    MapInjective(PortOf, c.definition.ports, d.definition.ports);
    forall e, f {
      EnvKernel(e, f);
    }
    LimitsKernel(parse, c.definition.cpuLimit, c.definition.memoryLimit, d.definition.cpuLimit,
                 d.definition.memoryLimit);
    AnnotationsKernel(c, d);
  }

  lemma TrafficKernel(s: seq<Traffic>, t: seq<Traffic>)
    ensures TrafficOf(s) == TrafficOf(t) <==> s == t
  {
    MapInjective(TargetOf, s, t);
    assert s != [] ==> TrafficOf(s)[0].latest == None;
    assert t != [] ==> TrafficOf(t)[0].latest == None;
  }

  /** A restart bump makes a new revision; a change of traffic, domains or routing alone never does. */
  lemma RevisionTriggers(parse: string -> Option<Quantity>, c: Container, g: int, t: seq<Traffic>,
                         ds: seq<CustomDomain>, r: bool)
    ensures TemplateOf(parse, c.(restartGeneration := g)) == TemplateOf(parse, c) <==> g == c.restartGeneration
    ensures TemplateOf(parse, c.(traffic := t, customDomains := ds, needsOpenShiftRoute := r)) == TemplateOf(parse, c)
    ensures ServiceOf(parse, c.(traffic := t)).spec == ServiceOf(parse, c).spec <==> t == c.traffic
  {
    TemplateKernel(parse, c.(restartGeneration := g), c);
    TrafficKernel(t, c.traffic);
  }

  function TotalAsked(ts: seq<Traffic>): int {
    if ts == [] then 0 else ts[0].percent + TotalAsked(ts[1..])
  }

  function TotalRouted(ts: seq<TrafficTarget>): int {
    if ts == [] then 0
    else (if ts[0].percent.Some? then ts[0].percent.value else 0) + TotalRouted(ts[1..])
  }

  /** An explicit split keeps order, length and total; no split means everything to the latest revision. */
  lemma {:induction false} TrafficConserved(ts: seq<Traffic>)
    ensures ts != [] ==>
      && |TrafficOf(ts)| == |ts|
      && (forall i :: 0 <= i < |ts| ==>
            TrafficOf(ts)[i].revisionName == ts[i].revisionName && TrafficOf(ts)[i].percent == Some(ts[i].percent))
    ensures TotalRouted(TrafficOf(ts)) == if ts == [] then 100 else TotalAsked(ts)
  {
    if ts != [] {
      TotalKept(ts);
    } else {
      assert TotalRouted(TrafficOf(ts)) == 100 + TotalRouted([]);
    }
  }

  lemma {:induction false} TotalKept(ts: seq<Traffic>)
    ensures TotalRouted(Map(TargetOf, ts)) == TotalAsked(ts)
  {
    if ts != [] {
      TotalKept(ts[1..]);
      assert Map(TargetOf, ts)[1..] == Map(TargetOf, ts[1..]);
    }
  }
}
