/** The installed policy, evaluated on the containers the operator itself builds. */
module Admission {
  import opened Objects
  import opened ApiServer
  import opened Tasks
  import opened Locality
  import opened Settling
  import opened Hydra
  import opened Naming
  import opened Translation
  import opened Plan
  import opened Footprints
  import opened Reconcilers
  import opened Convergence

  /** What rule texts other than the operator's say of a container under given parameters. */
  type Judge = (string, map<string, seq<string>>, PodContainer) -> bool

  /** What a rule text says of a container: true is a violation. */
  ghost predicate Violates(judge: Judge, rego: Rego, parameters: map<string, seq<string>>, c: PodContainer) {
    match rego
    case RequiredLimitsRego => "cpu" !in c.limits || "memory" !in c.limits
    case BlockPrivilegedRego =>
      c.security.Some? && (c.security.value.privileged || c.security.value.allowPrivilegeEscalation)
    // without the parameter the message, and with it the rule, is undefined
    case AllowedReposRego =>
      "repos" in parameters && !exists i :: 0 <= i < |parameters["repos"]| && parameters["repos"][i] <= c.image
    case OtherRego(text) => judge(text, parameters, c)
  }

  /** The constraint at k denies the container by the rules of the template at t, which defines its kind. */
  ghost predicate Denies(judge: Judge, w: World, k: Key, t: Key, c: PodContainer) {
    var constraint, template := At(w, k).obj, At(w, t).obj;
    && k.kind.ConstraintKind? && constraint.Some? && constraint.value.spec.ConstraintSpec?
    && "" in constraint.value.spec.apiGroups && "Pod" in constraint.value.spec.kinds
    && t.kind.TemplateKind? && template.Some? && template.value.spec.TemplateSpec?
    && ToLower(template.value.spec.crdKind) == k.kind.resource
    && Violates(judge, template.value.spec.rego, constraint.value.spec.parameters, c)
  }

  /** No constraint in the store denies the container. */
  ghost predicate Admitted(judge: Judge, w: World, c: PodContainer) {
    forall k, t :: !Denies(judge, w, k, t, c)
  }

  /** A constraint of the operator's, judged by its own template. */
  ghost predicate Own(k: Key, t: Key) {
    exists p :: k == ConstraintKey(p) && t == TemplateKey(p)
  }

  /** No constraint of somebody else denies the container, and no template of somebody else makes one deny it. */
  ghost predicate AdmittedElsewhere(judge: Judge, w: World, c: PodContainer) {
    forall k, t :: !Own(k, t) ==> !Denies(judge, w, k, t, c)
  }

  /** The store holds no policy objects but the operator's. */
  ghost predicate OnlyOwnPolicy(w: World) {
    forall k :: At(w, k).obj.Some? && (k.kind.ConstraintKind? || k.kind.TemplateKind?) ==> k in PolicyFoot()
  }

  lemma SuccessStep(x: Outside, w: World, v: World, t: Task)
    requires ReachedOne(x, w, v, t) && Succeeded(Branch(x, w, t))
    ensures Left(t.act, At(v, t.key).obj)
    ensures t.next != [] ==> ReachedOne(x, w, v, t.next[0]) && Succeeded(Branch(x, w, t.next[0]))
  {
    hide Do;
    OkLeaves(x, t.key, t.act, At(w, t.key));
    if t.next != [] {
      ReachedAt(x, w, v, t.next, 0);
      ParallelAt(x, w, t.next, 0);
      assert Branch(x, w, t).kids[0] == Branch(x, w, t.next[0]);
    }
  }

  /** A policy reconcile that reports success has installed the whole policy, whoever else wrote meanwhile. */
  lemma SuccessInstalls(x: Outside, w: World, allowed: seq<string>)
    requires Succeeded(Visit(x, w, PolicyTask(allowed)).1)
    ensures PolicySettled(allowed, Visit(x, w, PolicyTask(allowed)).0)
  {
    hide Visit, Branch, ReachedOne, Succeeded, Unique, Foot;
    var t1 := PolicyTask(allowed);
    PolicyTaskFoot(allowed);
    VisitReaches(x, w, t1);
    VisitIsBranch(x, w, t1);
    var v := Visit(x, w, t1).0;
    SuccessStep(x, w, v, t1);
    var t2 := t1.next[0];
    SuccessStep(x, w, v, t2);
    var t3 := t2.next[0];
    SuccessStep(x, w, v, t3);
    var c1 := t3.next[0];
    SuccessStep(x, w, v, c1);
    var c2 := c1.next[0];
    SuccessStep(x, w, v, c2);
    var c3 := c2.next[0];
    SuccessStep(x, w, v, c3);
    forall p
      ensures Holds(v, TemplateKey(p), TemplateSpec(PolicyKind(p), "admission.k8s.gatekeeper.sh", PolicyRego(p)), map[])
    {
      match p
      case RequiredLimits => assert t1.key == TemplateKey(p);
      case BlockPrivileged => assert t2.key == TemplateKey(p);
      case AllowedRepos => assert t3.key == TemplateKey(p);
    }
  }

  /** What the operator must be given for its own container to pass the policy it installs. */
  ghost predicate Compliant(parse: Parser, allowed: seq<string>, c: Container) {
    && c.definition.cpuLimit != "" && parse(c.definition.cpuLimit).Some?
    && c.definition.memoryLimit != "" && parse(c.definition.memoryLimit).Some?
    && (allowed == [] || exists i :: 0 <= i < |allowed| && allowed[i] <= c.definition.image)
  }

  /** What each of the operator's own constraints says of the container built for c. */
  lemma OwnDenials(judge: Judge, parse: Parser, allowed: seq<string>, v: World, c: Container, p: Policy)
    requires PolicySettled(allowed, v)
    ensures Denies(judge, v, ConstraintKey(p), TemplateKey(p), TemplateOf(parse, c).container) <==>
              match p
              case RequiredLimits =>
                Limit(parse, c.definition.cpuLimit).None? || Limit(parse, c.definition.memoryLimit).None?
              case BlockPrivileged => false
              case AllowedRepos => allowed != [] && !exists i :: 0 <= i < |allowed| && allowed[i] <= c.definition.image
  {
    hide LimitsOf, ToLower;
    assert Holds(v, TemplateKey(p), TemplateSpec(PolicyKind(p), "admission.k8s.gatekeeper.sh", PolicyRego(p)), map[]);
    LimitsPresent(parse, c.definition.cpuLimit, c.definition.memoryLimit);
  }

  /** All constraints admit the container exactly if it complies and nobody else's constraint or template objects. */
  lemma SettledPolicyJudges(judge: Judge, parse: Parser, allowed: seq<string>, v: World, c: Container)
    requires PolicySettled(allowed, v)
    ensures Admitted(judge, v, TemplateOf(parse, c).container) <==>
            Compliant(parse, allowed, c) && AdmittedElsewhere(judge, v, TemplateOf(parse, c).container)
    ensures !Denies(judge, v, ConstraintKey(BlockPrivileged), TemplateKey(BlockPrivileged),
                    TemplateOf(parse, c).container)
    ensures OnlyOwnPolicy(v) ==> AdmittedElsewhere(judge, v, TemplateOf(parse, c).container)
  {
    hide Denies, PolicySettled, TemplateOf, PolicyName, PolicyKind, OnlyOwnPolicy;
    var pod := TemplateOf(parse, c).container;
    forall p
      ensures Own(ConstraintKey(p), TemplateKey(p))
    {
    }
    OwnDenials(judge, parse, allowed, v, c, RequiredLimits);
    OwnDenials(judge, parse, allowed, v, c, BlockPrivileged);
    OwnDenials(judge, parse, allowed, v, c, AllowedRepos);
    if Compliant(parse, allowed, c) && AdmittedElsewhere(judge, v, pod) {
      forall k, t
        ensures !Denies(judge, v, k, t, pod)
      {
        if Own(k, t) {
          var p :| k == ConstraintKey(p) && t == TemplateKey(p);
          assert p == RequiredLimits || p == BlockPrivileged || p == AllowedRepos;
        }
      }
    }
    if OnlyOwnPolicy(v) {
      forall k, t | !Own(k, t)
        ensures !Denies(judge, v, k, t, pod)
      {
        NobodyElse(judge, allowed, v, k, t, pod);
      }
    }
  }

  lemma KindsDiffer()
    ensures forall p, q :: ToLower(PolicyKind(p)) == ToLower(PolicyKind(q)) ==> p == q
  {
    assert |PolicyKind(RequiredLimits)| == 25 && |PolicyKind(BlockPrivileged)| == 18 &&
           |PolicyKind(AllowedRepos)| == 15;
  }

  /** The operator's own constraints are judged by their own templates only. */
  lemma NobodyElse(judge: Judge, allowed: seq<string>, v: World, k: Key, t: Key, c: PodContainer)
    requires PolicySettled(allowed, v) && OnlyOwnPolicy(v) && !Own(k, t)
    ensures !Denies(judge, v, k, t, c)
  {
    hide Violates, ToLower, PolicyName, PolicyKind;
    if Denies(judge, v, k, t, c) {
      assert k in PolicyFoot() && t in PolicyFoot();
      var p :| k == ConstraintKey(p);
      var q :| t == TemplateKey(q);
      assert Holds(v, TemplateKey(q), TemplateSpec(PolicyKind(q), "admission.k8s.gatekeeper.sh", PolicyRego(q)), map[]);
      KindsDiffer();
      assert false;
    }
  }

  lemma LimitsPresent(parse: Parser, cpu: string, memory: string)
    ensures "cpu" in LimitsOf(parse, cpu, memory) <==> Limit(parse, cpu).Some?
    ensures "memory" in LimitsOf(parse, cpu, memory) <==> Limit(parse, memory).Some?
  {
    assert "cpu"[0] != "memory"[0];
  }

  /** A policy reconcile touches no policy object but the operator's own. */
  lemma OnlyOwnPolicyStays(x: Outside, w: World, allowed: seq<string>)
    requires OnlyOwnPolicy(w)
    ensures OnlyOwnPolicy(Visit(x, w, PolicyTask(allowed)).0)
  {
    hide Visit, Foot, Cells, PolicyTask, PolicyFoot;
    PolicyTaskFoot(allowed);
    VisitWrites(x, w, PolicyTask(allowed));
    var v := Visit(x, w, PolicyTask(allowed)).0;
    assert forall k :: k !in PolicyFoot() ==> At(v, k) == At(w, k);
  }

  /**
   Translation agrees with the policy installed. After a successful policy reconcile, whoever else
   wrote meanwhile, the container built for c is admitted by every constraint in the store exactly if
   both its limits are given and parse, the registry list is empty or has a prefix of its image, and
   no constraint or template of somebody else denies it. Where there were no policy objects but the
   operator's own before, the last condition falls away. The privileged rule never denies it.
   */
  lemma TranslationMeetsPolicy(judge: Judge, x: Outside, w: World, allowed: seq<string>, c: Container)
    requires Succeeded(Visit(x, w, PolicyTask(allowed)).1)
    ensures
      var v, pod := Visit(x, w, PolicyTask(allowed)).0, TemplateOf(x.parse, c).container;
      && (Admitted(judge, v, pod) <==> Compliant(x.parse, allowed, c) && AdmittedElsewhere(judge, v, pod))
      && (OnlyOwnPolicy(w) ==> (Admitted(judge, v, pod) <==> Compliant(x.parse, allowed, c)))
      && !Denies(judge, v, ConstraintKey(BlockPrivileged), TemplateKey(BlockPrivileged), pod)
  {
    hide Visit, Succeeded, Denies, Admitted, AdmittedElsewhere, Compliant, PolicySettled, TemplateOf, OnlyOwnPolicy;
    SuccessInstalls(x, w, allowed);
    SettledPolicyJudges(judge, x.parse, allowed, Visit(x, w, PolicyTask(allowed)).0, c);
    if OnlyOwnPolicy(w) {
      OnlyOwnPolicyStays(x, w, allowed);
    }
  }
}
