# hydra-operator in Dafny

hydra-operator pulls a desired state from the Hydra control plane and drives a Kubernetes cluster
towards it: namespaces and quotas, Knative Services, OpenShift Routes, DomainMappings and Gatekeeper
policy objects. Any API call can be refused, or be carried out and still answer with an error, and
controllers or other operator replicas can write between a Get and the Update that follows it. This
project models that protocol, the startup that obtains the cluster token, and the script that
compares the two rendered ClusterRoles, and proves what they guarantee over all desired states,
stores, failures and interleavings.

`dafny verify dfyconfig.toml` checks everything.

## How the model is built

**The store.** `ApiServer` models the API server as one cell per (kind, namespace, name): the object,
the number of writes it took, and the number of calls that addressed it. The number of writes plays
the part of resourceVersion; clients compare versions of one key only, and only for equality, so
counting per key gives each call the outcome that a cluster-wide counter would give. The surroundings
of a run, `Outside`, say for the n-th call on each key what another writer does just before it, what
admission adds to an object being created, whether creating is barred, and whether the call is
answered, refused without effect, or carried out with its reply lost. `subresource` tells a real server, where plain writes cannot touch
status, from the fake clientsets, where they can. Quantity parsing is an arbitrary partial function.

**The code.** The reconcilers, the manager, the builders, the status derivation, the Hydra client, the
token store and the startup are classes and methods in the source's form: the same calls in the same
order, loops where the source loops, fields where the source has fields. Each is proved equal, in the
final store and in the requests sent, to a function on values.

**The tasks.** Those functions describe a sync as a forest of tasks (`Plan`), each of which drives one
key with at most two calls; its subtasks are attempted only if it succeeds, its siblings in any case.
A container's Service has its Route and mappings below it, a namespace has its quota, and each policy
object has the next one. `Run` is the sequential meaning, and `Branch`/`Parallel` the meaning of each
tree on its own; `Locality.RunIsParallel` shows that they agree if no two tasks share a key. Order
independence, isolation, convergence and the fixed point follow from that.

**Missing namespaces.** `Homes` runs the same tasks on a server that refuses to create an object in a
namespace that is not there. Such a sync is shown to be a sync in which creating is barred for just the
containers whose namespace is missing by then, so that all other results apply to it.

**The machine.** `Machine` takes the same tasks one API call at a time, with any number of replicas,
crashes and restarts at any call, new desired states, and controllers that write status and
annotations in between. `Machine.MachineRunsForest` shows that it includes the sequential run. The
results of `Safety` and `Interleaving` hold in every state it can reach. Environment steps of the
machine change status and top-level annotations of existing objects; they do not delete objects.

**Written out.** The functions above compute names, keys, labels, values and words. `Verbatim` and
`VerbatimReports` state the main results once more without them: which object, under which literal key
and with which fields, the store holds after a sync, and which request, word for word, is sent when.
The builders, the status derivation, the startup and the drift check say the same in their contracts.

**Startup.** `Registration` is a second machine, of one operator process that boots, loads,
registers, saves, serves and crashes at any of these steps. `Operator` joins it to the manager. The
manager's two loops share one client: just as `Outside` says what other writers do between the calls on
a key, the client is given what the heartbeat loop sends between the requests of the sync loop.

## What comes out

- One sync none of whose own calls fails brings every listed object to the desired state from any
  store (`Convergence.SelfStabilisation`), policy objects only where Gatekeeper is detected. That holds
  from a store without the namespaces too, because they come before their containers
  (`Homes.StrictStabilisation`); a container that is turned to too early is not created
  (`Homes.TooEarly`). Objects of
  containers that are no longer listed stay: a sync leaves every key alone that is not derived from the
  desired state (`SyncTheorems.SyncFrame`). Whatever calls fail and whoever else writes, what a sync
  reports as a success is one (`Assurance.SuccessMeansDone`).
- A second such sync sends the same reports. That it also changes no object is *not* always so:
  quotas, templates and constraints are updated without their annotations (namespace.go:98-105,
  policy.go:210), so a stamp that admission put on a newly created one is dropped.
  `Convergence.FixedPoint` gives the exact condition, in terms of what is there before the first sync
  and what admission stamps; `Convergence.StampedQuotaIsNotFixed` is an example.
- Every Route and DomainMapping written by a replica targets an existing Service, every constraint
  has its template, no Service is created twice, no update of a Service, Route or mapping overwrites a
  status or annotation it has not read, and no Service ever mixes the specifications of two replicas.
- The installed policy admits the operator's own containers exactly if their limits parse and their
  registry is listed, unless a constraint or template of somebody else denies them
  (`Admission.TranslationMeetsPolicy`).
- A persisted token ends registration, but a process that dies between registering and saving makes
  the next one register again, with the same registration token: `Registration.RegistersAgainIff`
  says exactly when.
- The drift check's verdict is exact, but its listing can be empty although there is drift: exactly if
  every rule of either file has a counterpart in the other, so that they only repeat some of them
  differently often (`RbacDrift.SilentDrift`).

## Model

| member | source | states |
|---|---|---|
| `Convergence.SelfStabilisation` | internal/reconciler/manager.go:88-110 | from any store, one sync none of whose own calls fails or is interfered with makes every listed namespace, quota, Service, Route (present iff flagged) and DomainMapping exactly what the desired state asks for, and every policy object too if Gatekeeper is detected; nothing is asked of calls before or after, or on other keys |
| `Verbatim.SyncLeaves` | internal/reconciler/manager.go:88-110 | the same written out: after such a sync the store holds, under the literal keys, the namespaces and their quotas entry by entry, each Service field by field with its Route and mappings, and the six policy objects |
| `Verbatim.SuccessLeaves` | internal/reconciler/manager.go:132-193 | whatever calls fail, a namespace reported "synced" is there with the quota asked for entry by entry, and a container not reported "error" has its Service field by field |
| `Verbatim.SyncTouchesOnly` | internal/reconciler/manager.go:88-110 | whatever fails, a sync changes nothing but the keys written out: listed namespaces, their "hydra-quota", "ksvc-" objects and hostnames, and the fixed policy names where Gatekeeper is detected |
| `Verbatim.DistinctMeans` | internal/reconciler/naming.go:15-17 | distinct keys means no more than that names, IDs up to case, and hostnames differ within their scope |
| `VerbatimReports.SyncSays` | internal/reconciler/manager.go:88-218 | everything a sync sends, request by request and word for word, by what became of its tasks, with the two counts; a failed pull says "unreachable" |
| `VerbatimReports.CalmSyncSays` | internal/reconciler/manager.go:132-218 | a sync whose own calls are undisturbed says "synced" for every namespace that was to be made or was there, "error" for the others, and reports for each container what the store now holds |
| `VerbatimReports.RunningMeans` | internal/reconciler/status.go:33-43 | a container is reported "running" iff its Service was written and the object answered has Ready "True" |
| `VerbatimReports.DomainsAreTold` | internal/reconciler/domain.go:92-103 | a domain with an ID is reported "active" iff its mapping was written and the object answered is Ready, else "error" with what went wrong or that it is not ready yet |
| `VerbatimReports.AgentIsTold` | internal/reconciler/manager.go:153-190 | "error" alone for a Service not written; otherwise the snapshot, with "https://" and the Route's first host as the endpoint if there is one, else the Service's URL |
| `VerbatimReports.LoggedErrors` | internal/reconciler/container.go:46-66 | the errors that only reach the log, in words: the failing call, the object, and the answer |
| `VerbatimReports.NamespaceIsTold` | internal/reconciler/manager.go:134-141 | "synced" iff namespace and quota succeeded, otherwise the failing call in words with its answer |
| `Tasks.StageMeans` | internal/reconciler/container.go:43-67 | a failure names the call that failed and carries what that call answered |
| `Assurance.SuccessMeansDone` | internal/reconciler/manager.go:132-193 | whatever calls fail and whoever else writes: a namespace reported "synced" exists with its quota as asked, and is as it was or as created unless somebody else wrote to it meanwhile; a container not reported "error" has its Service as built; a hostname reported "active" is mapped to it |
| `Convergence.NamespaceConverges` | internal/reconciler/namespace.go:34-114 | an undisturbed namespace task: a managed namespace exists, an existing one is untouched, its quota is the configured one or absent; a missing imported namespace leaves the quota alone |
| `Convergence.ContainerConverges` | internal/reconciler/container.go:37-69 | an undisturbed container tree leaves the built Service, the Route exactly if flagged, and one mapping per hostname |
| `Convergence.PolicyConverges` | internal/reconciler/policy.go:97-132 | an undisturbed policy part leaves three templates, two unconditional constraints, and the registry constraint iff the list is nonempty |
| `Convergence.FixedPoint` | internal/reconciler/manager.go:88-110 | after a sync whose own calls are undisturbed, a second such sync sends the same requests, and changes no object iff admission stamps no missing quota of a namespace that is managed or present, and no missing policy object where Gatekeeper is detected |
| `Convergence.StampsKnown` | internal/reconciler/namespace.go:98-113 | whether a plan loses a stamp can be told beforehand from the store, the desired state and what admission stamps |
| `Convergence.StampedQuotaIsNotFixed` | internal/reconciler/namespace.go:98-105 | a stamped quota loses its annotations on the second sync, so the condition of FixedPoint is needed |
| `Settling.CalmDo` | internal/reconciler/policy.go:201-213 | a get-then-write whose own calls are undisturbed meets its goal from any prior object, and fails only where a required object is missing |
| `Settling.OkMeets` | internal/reconciler/policy.go:201-213 | whatever calls fail, a get-then-write that succeeds has met its goal if nobody else wrote to its key between its calls |
| `Settling.OkLeaves` | internal/reconciler/policy.go:201-213 | whatever calls fail and whoever else writes, a get-then-write that succeeds leaves its own spec and labels, a removal nothing |
| `Settling.CalmDoTwice` | internal/reconciler/container.go:54-64 | repeating a task, with the calls of both undisturbed, reports the same and keeps the object iff it carries annotations over or none were stamped |
| `Settling.RepeatForest` | internal/reconciler/manager.go:88-110 | a forest repeated on the store it reached, with the calls of both runs undisturbed, tells the same story and keeps every object iff no stamp is at stake |
| `SyncTheorems.SyncFrame` | internal/reconciler/manager.go:88-110 | whatever fails, keys not derived from the desired state or the fixed quota and policy names are untouched |
| `SyncTheorems.Isolation` | internal/reconciler/manager.go:132-159 | changing what befalls calls on some keys changes neither the objects nor the reports of any namespace or container that owns none of them; a container refused for want of its namespace counts as hit itself |
| `Homes.StrictIsolation` | internal/reconciler/manager.go:132-159 | on a server that refuses to create in a missing namespace: the same for every container none of whose own keys is hit and whose namespace is not hit |
| `Homes.StrictStabilisation` | internal/reconciler/manager.go:100-101 | on such a server, one undisturbed sync settles everything listed even from a store without the managed namespaces, because they come first |
| `Homes.TooEarly` | internal/reconciler/container.go:43-47 | on such a server, a container turned to before its namespace exists is reported as an error and nothing of it is created |
| `Homes.StrictOrderIndependence` | internal/reconciler/manager.go:132-193 | on such a server too, permuting namespaces among themselves and containers among themselves changes neither the final store nor the multiset of requests |
| `Homes.StrictSyncIsSync` | internal/reconciler/manager.go:88-110 | a sync on such a server is a sync in which creating is barred exactly for containers whose namespace is missing once the namespaces are done |
| `SyncTheorems.IsolationWithin` | internal/reconciler/domain.go:46-55 | failures on some hostnames or on the Route of a container reach neither its Service, its agent report (unless the Route is hit), nor its other hostnames' mappings and statuses |
| `SyncTheorems.OrderIndependence` | internal/reconciler/manager.go:132-193 | permuting namespaces and containers yields the same final store and the same multiset of requests |
| `SyncTheorems.Accounting` | internal/reconciler/manager.go:88-110 | whatever fails: one namespace report per namespace in order, one agent report per container in order, one callback per nonempty domain ID of each container whose Service was written, then one cluster report counting the "synced" and "running" ones; a failed pull only sends "unreachable" |
| `SyncTheorems.ContainerAccounting` | internal/reconciler/manager.go:149-193 | what the container part sends, by kind and in order, and that its count is the number of "running" reports |
| `SyncTheorems.NamespaceAccounting` | internal/reconciler/manager.go:132-147 | what the namespace part sends, in order, and that its count is the number of "synced" reports |
| `SyncTheorems.DomainAccounting` | internal/reconciler/manager.go:203-218 | exactly the nonempty domain IDs are called back, in order |
| `Locality.RunIsParallel` | internal/reconciler/manager.go:149-193 | with distinct keys the sequential run equals every tree's run on its own |
| `Locality.OrderIrrelevant` | internal/reconciler/manager.go:132-193 | what a forest with distinct keys writes does not depend on the order of its trees |
| `Locality.BranchLocal` | internal/reconciler/manager.go:151-159 | what becomes of a tree depends on nothing but its own keys |
| `Tasks.RunWrites` | internal/reconciler/manager.go:88-110 | a run changes the store exactly at the keys its tasks addressed |
| `Footprints.PlanFoot` | internal/reconciler/naming.go:15-17 | the plan addresses exactly the derived keys, none twice if names, lowercased IDs and hostnames are distinct |
| `Naming.NamesCollide` | internal/reconciler/naming.go:15-17 | two container IDs share a Service name iff they are equal up to letter case |
| `Naming.NameMeans` | internal/reconciler/naming.go:15-17 | the name is "ksvc-" and the ID with its capitals lowered |
| `Reports.SyncIsRun` | internal/reconciler/manager.go:88-110 | a sync with a desired state is one run of its plan, and all its reports can be read off that run |
| `Manager.Manager.SyncOnce` | internal/reconciler/manager.go:88-110 | leaves the store and sends the requests that Sync describes, each with the client's token |
| `Manager.Manager.HeartbeatOnce` | internal/reconciler/manager.go:64-83 | one authenticated heartbeat with version, node count and capabilities, none if detection or marshalling fails |
| `Manager.Manager.ReconcilePolicy` | internal/reconciler/manager.go:118-130 | runs the policy tasks iff detection succeeds and finds Gatekeeper |
| `Manager.Manager.ReconcileNamespaces` | internal/reconciler/manager.go:132-147 | final store, requests and count of the namespace pass |
| `Manager.Manager.ReconcileContainers` | internal/reconciler/manager.go:149-193 | final store, requests and count of the container pass |
| `Manager.Manager.ReconcileContainer` | internal/reconciler/manager.go:151-191 | one container: the Service, and below it Route, mappings, callbacks and agent report |
| `Manager.Manager.ReportDomainStatuses` | internal/reconciler/manager.go:203-218 | one callback per status with a domain ID |
| `Reconcilers.NamespaceReconciler.Reconcile` | internal/reconciler/namespace.go:34-46 | carries out the namespace task and, if it succeeds, the quota task; returns the wrapped error |
| `Reconcilers.NamespaceReconciler.EnsureNamespace` | internal/reconciler/namespace.go:48-67 | get, then create; losing the race to another creator is success |
| `Reconcilers.NamespaceReconciler.ReconcileQuota` | internal/reconciler/namespace.go:69-114 | creates, updates or deletes the quota as its task says, with the entries that BuildHard computes |
| `Reconcilers.ContainerReconciler.Reconcile` | internal/reconciler/container.go:37-69 | carries out the Service upsert with status and annotations carried over; the snapshot is that of the object the server answered with |
| `Reconcilers.RouteReconciler.Reconcile` | internal/reconciler/route.go:37-91 | creates, updates or deletes the Route by flag and returns its endpoint |
| `Reconcilers.DomainReconciler.Reconcile` | internal/reconciler/domain.go:46-55 | runs one mapping task per domain, each with its own outcome and ID |
| `Reconcilers.DomainReconciler.ReconcileOne` | internal/reconciler/domain.go:57-104 | one mapping's upsert and the status read off its outcome |
| `Reconcilers.PolicyReconciler.Reconcile` | internal/reconciler/policy.go:97-132 | carries out the six policy steps in turn up to the first failure, and returns that step's wrapped error or none |
| `Reconcilers.PolicyReconciler.ApplyUnstructured` | internal/reconciler/policy.go:201-213 | get-or-create-or-update without carrying anything over |
| `Reconcilers.PolicyReconciler.ApplyConstraintTemplate` | internal/reconciler/policy.go:134-154 | one template step of the sequence, with the error it meets |
| `Reconcilers.PolicyReconciler.ApplyConstraint` | internal/reconciler/policy.go:161-187 | one constraint step, applied or, without parameters, removed, with the error it meets |
| `Reconcilers.PolicyIsChain` | internal/reconciler/policy.go:107-131 | stopping at the first failure is the same as hanging each policy task below the one before |
| `Translation.TemplateKernel` | internal/reconciler/container.go:71-134 | two containers get equal revision templates iff image, effective env, ports, parsed limits, health path, restart generation, runtime class and the positive parts of scaling agree |
| `Translation.RevisionTriggers` | internal/reconciler/container.go:89-132 | a restart bump always changes the template; traffic, domains and routing never do |
| `Translation.TrafficConserved` | internal/reconciler/container.go:198-208 | an explicit split keeps order, length and percent total; none means 100 to the latest revision |
| `Translation.TrafficKernel` | internal/reconciler/container.go:198-208 | different splits, including none, never translate to the same targets |
| `Translation.BuildService` | internal/reconciler/container.go:71-134 | returns what the container asks for, field by field: image, each variable and port, limits and requests under their own names, probe, runtime class, concurrency, scale and restart annotations in decimal, labels and traffic |
| `Translation.BuildEnv` | internal/reconciler/container.go:143-170 | each variable by name with its literal, or with its Secret and the key that defaults to the name, in order |
| `Translation.BuildPorts` | internal/reconciler/container.go:172-185 | each port, in order |
| `Translation.BuildTraffic` | internal/reconciler/container.go:198-208 | each target, in order, or the default one |
| `Translation.BuildResourceList` | internal/reconciler/container.go:187-192 | "cpu" and "memory" each present iff given and parsed, with that value, and nothing else |
| `Translation.ResourceList.SetQuantity` | internal/reconciler/namespace.go:116-123 | sets an entry iff the value is nonempty and parses |
| `Translation.EnvKernel` | internal/reconciler/container.go:148-168 | which environment entries translate alike: the Secret key defaults to the variable's name |
| `Translation.LimitsKernel` | internal/reconciler/container.go:187-192 | resource lists are equal iff both parsed limits are |
| `Translation.ServiceIsAsAsked` | internal/reconciler/container.go:71-134 | what a container translates to, field by field |
| `Translation.HardIsAsAsked` | internal/reconciler/namespace.go:89-96 | the quota's entries: each of the four quantities present iff its own field is given and parses, with that value; "pods" iff positive; nothing else |
| `Reconcilers.NamespaceReconciler.BuildHard` | internal/reconciler/namespace.go:89-96 | computes those entries |
| `Decimal.ItoaWrites` | internal/reconciler/container.go:89-97 | what is printed is the decimal of the number: digits without leading zeros, sign first |
| `Decimal.ItoaInjective` | internal/reconciler/container.go:89-97 | different integers print differently |
| `ServiceStatus.DeriveContainerStatus` | internal/reconciler/status.go:25-55 | "running" iff Ready is "True", "degraded" iff "False", "deploying" otherwise; one replica iff running; the URL or nothing; the latest ready revision; the revisions at their first occurrences |
| `ServiceStatus.RevisionsAreFirstOccurrences` | internal/reconciler/status.go:45-52 | the reported revisions are the nonempty names at their first occurrences, in order, none missing |
| `ServiceStatus.FirstOccurrencesUnique` | internal/reconciler/status.go:45-52 | that description has one solution, and it lists no name twice |
| `Machine.MachineRunsForest` | internal/reconciler/manager.go:88-110 | call by call, a replica alone gets through its tasks exactly as the sequential run does |
| `Machine.ExecPrefix` | internal/reconciler/manager.go:41-60 | every prefix of a run is a run, so a property of all runs holds at every moment |
| `Safety.ReferentialIntegrity` | internal/reconciler/manager.go:151-176 | in every reachable state, Routes and DomainMappings written by a replica target an existing Service of their namespace, and constraints have their template |
| `Safety.PermanentStays` | internal/reconciler/container.go:37-69 | no replica ever removes a namespace, Service, mapping, template or one of the two unconditional constraints |
| `Safety.AtMostOneCreate` | internal/reconciler/container.go:43-49 | with any number of replicas, at most one Create of a Service takes effect |
| `Safety.LostNamespaceRace` | internal/reconciler/namespace.go:57-66 | in any run: a replica about to create a managed namespace that another replica's call has created in the meantime had seen it absent before, leaves the winner's object alone and goes on to that namespace's quota |
| `Safety.RunSafe` | internal/reconciler/manager.go:149-193 | what every run of the machine keeps: pending writes refer only to what stands, and nothing permanent goes away |
| `Interleaving.NoLostUpdate` | internal/reconciler/container.go:54-64 | in any run: an update of a Service, Route or mapping based on a stale read changes nothing and fails; one that writes leaves status and annotations as they were immediately before |
| `Discipline.NextWellMade` | internal/reconciler/container.go:54-63 | in every reachable state, updates of Services, Routes and mappings carry over what was read, and only managed namespaces are ensured |
| `Interleaving.FirstWriteSucceeds` | internal/reconciler/container.go:41-68 | whatever reads preceded it, the first write to reach an unchanged key succeeds unless it is made to fail or barred |
| `Interleaving.ServiceNeverMixed` | internal/reconciler/container.go:71-134 | a Service written by a replica has exactly the spec and labels that one container of one pulled state translates to |
| `Interleaving.PolicySafety` | internal/reconciler/policy.go:107-131 | a constraint is there only if its template is; the two unconditional ones stay; the registry constraint carries a nonempty list some pulled state gave, in order |
| `Interleaving.RunRemembers` | internal/reconciler/container.go:54-54 | in every reachable state what a replica holds is the stored object or an older version of it |
| `Interleaving.RunTraced` | internal/reconciler/manager.go:88-110 | in every reachable state each pending write and each object written was asked for whole by one pulled state |
| `Admission.TranslationMeetsPolicy` | internal/reconciler/policy.go:32-70 | after a successful policy reconcile, whatever calls failed before and whoever else wrote, the built container is admitted by every constraint in the store iff both limits are given and parse, the registry list is empty or has a prefix of the image, and no constraint or template of somebody else denies it; the last condition falls away if there was none before; the privileged rule never denies it |
| `Admission.SuccessInstalls` | internal/reconciler/policy.go:97-132 | a policy reconcile that reports success has installed the whole policy, from any store and whoever else wrote meanwhile |
| `Admission.SettledPolicyJudges` | internal/reconciler/policy.go:32-70 | the same of any store that holds the whole policy: all constraints in it admit exactly the compliant containers that no constraint or template of somebody else denies |
| `Registration.RegistersOnce` | cmd/operator/main.go:98-119 | once a nonempty token is persisted, through all later boots and crashes the Secret is unchanged and no registration is sent |
| `Registration.RegistersOnlyWhenEmpty` | cmd/operator/main.go:102-109 | a registration is sent only by a process that found no token, while none is persisted |
| `Registration.RegistersAgainIff` | cmd/operator/main.go:98-119 | at any moment, some future sends one more registration iff no token is persisted and a registration token is configured |
| `Registration.PersistedMeans` | internal/tokenstore/tokenstore.go:34-43 | the persisted token is what the Secret holds under "cluster-token", and there is none iff the Secret, the entry or its value is missing |
| `Registration.TokensAreIssued` | cmd/operator/main.go:106-114 | over all boots and crashes: if the Secret is not as it was, it was written for a token that Hydra answered to a registration in this story |
| `Registration.ServesOwnToken` | cmd/operator/main.go:102-119 | a process that found no token serves only on the answer to its own registration, and then that is what is persisted; if the registration fails it ends with the Secret as it found it |
| `Registration.StartupSucceeds` | cmd/operator/main.go:98-119 | a startup none of whose calls fails serves on the persisted token, or else on the one Hydra answers, which is persisted then |
| `Registration.ServesWithPersistedToken` | cmd/operator/main.go:115-136 | the manager runs only with the persisted token in the client; every request but a registration carries the persisted token, or the empty one if Hydra issued an empty one |
| `Registration.StartOperator` | cmd/operator/main.go:98-119 | exactly the machine's startup; a failed load, a missing registration token and a failed registration end it with the Secret as found; a token found is used as it is; a token obtained is used only once it is in the Secret |
| `Registration.StartupIsStory` | cmd/operator/main.go:98-119 | a startup during whose calls nobody else writes to the Secret is a run of the registration machine |
| `Registration.TokenStore.Load` | internal/tokenstore/tokenstore.go:34-43 | the Secret's "cluster-token", "" if there is no Secret, an error otherwise |
| `Registration.TokenStore.Save` | internal/tokenstore/tokenstore.go:46-66 | create, and an unconditional update if the Secret exists, of a Secret with "cluster-token" |
| `Hydra.Client.SetToken` | internal/hydraclient/client.go:41-43 | replaces the token and sends nothing |
| `Hydra.Client.Send` | internal/hydraclient/client.go:320-359 | one authenticated request with the current token, after whatever the other loop sends before it |
| `Hydra.Client.RegisterCluster` | internal/hydraclient/client.go:53-63 | one unauthenticated request; on success the token becomes the one answered |
| `Operator.RunLoops` | internal/reconciler/manager.go:41-60 | the two loops side by side: the store the syncs leave, and on the wire their requests with any heartbeats in between, all carrying the client's token |
| `Operator.LoopedIsConcurrent` | internal/reconciler/manager.go:41-60 | what the loops send is an interleaving of the sync loop's requests and of the heartbeats, each in its own order |
| `Operator.HeartbeatsDoNotMatter` | internal/reconciler/manager.go:41-44 | however the loops interleave, the store and all requests other than heartbeats are those of the sync loop alone |
| `Operator.RunOperator` | cmd/operator/main.go:98-136 | the whole process: startup, then the manager's two loops only if startup succeeded |
| `Operator.EveryRequestSigned` | cmd/operator/main.go:98-136 | however its loops interleave, an undisturbed process sends registrations without a token and everything else with the token persisted at its end; its syncs never touch the Secret |
| `Operator.HistoryFrame` | internal/reconciler/manager.go:48-60 | a key no pulled state derives survives any history of syncs untouched |
| `Operator.StabilisesAfterHistory` | internal/reconciler/manager.go:48-60 | after any history of syncs, states and failures, one sync whose own calls are undisturbed settles everything listed, with or without Gatekeeper |
| `Rollout.DomainEntry.UnmarshalJSON` | internal/hydraclient/client.go:206-221 | a string is the hostname, null nothing, an object gives its "id" and "hostname" where they are strings; anything else is an error and leaves the receiver alone |
| `Rollout.RolloutCompatible` | internal/hydraclient/client.go:206-221 | replacing any entries by bare hostnames keeps decodability and the final store; the trace loses requests, and those lost are exactly these entries' callbacks |
| `Rollout.MarksAreCallbacks` | internal/reconciler/manager.go:203-218 | the requests marked as lost are, in order, the callbacks with an ID of the bared entries of each container whose Service was written |
| `Rollout.PlanBlind` | internal/reconciler/domain.go:46-55 | domain IDs never reach the cluster |
| `RbacDrift.NormalFormComplete` | scripts/check-rbac-drift.py:36-48 | normal forms are equal iff the rules can be paired off so that paired rules have the same keys and per key the same multiset of values |
| `RbacDrift.RuleKernel` | scripts/check-rbac-drift.py:40-47 | two rules normalise alike iff they have the same keys and the same multisets of values |
| `RbacDrift.NormalizeRules` | scripts/check-rbac-drift.py:36-48 | the loop computes that normal form |
| `RbacDrift.ListingExact` | scripts/check-rbac-drift.py:63-64 | a rule is listed iff no rule of the other side matches it |
| `RbacDrift.NormalIsSame` | scripts/check-rbac-drift.py:40-47 | a rule's normal form is the same rule: same keys, same multisets of values |
| `RbacDrift.OrderMeans` | scripts/check-rbac-drift.py:42-48 | strings and lists of strings are sorted by the first place where they differ |
| `RbacDrift.OnlyInMeans` | scripts/check-rbac-drift.py:63-64 | the listings hold exactly the rules of one side that the other lacks, as often as they occur |
| `RbacDrift.SilentDrift` | scripts/check-rbac-drift.py:56-73 | when the files do not match up, nothing is listed iff every rule of either has a counterpart in the other; never so if neither states a rule twice |
| `RbacDrift.NothingListed` | scripts/check-rbac-drift.py:63-64 | one listing is empty iff every rule of that file has a counterpart in the other |
| `RbacDrift.SilentDriftExample` | scripts/check-rbac-drift.py:56-73 | drift with nothing listed does occur: a rule repeated on one side only |
| `RbacDrift.LoadIsUnique` | scripts/check-rbac-drift.py:19-33 | a document is loaded iff it is the only one of kind "ClusterRole" and name "hydra-operator"; none and several are the two errors |
| `RbacDrift.CheckDrift` | scripts/check-rbac-drift.py:51-74 | unusable iff either file has not exactly one ClusterRole named hydra-operator; about those two: success iff their rules match up, otherwise the sorted listings of the rules without counterpart, both empty iff every rule has one, and not so if neither states a rule twice |
| `Ordering.SortCanonical` | scripts/check-rbac-drift.py:42-48 | under a total order, sorting is a canonical form of multisets |
| `Ordering.LexTotal` | scripts/check-rbac-drift.py:42-48 | the ordering of strings and tuples is total |
| `Ordering.SortedUnique` | scripts/check-rbac-drift.py:48-48 | there is only one sorted arrangement of a multiset |

## Left out

- HTTP transport, JSON text, timeouts and Go's case-insensitive matching of field names: requests are
  values with the header they carry, JSON values a small datatype.
- The text of the API's own answers, and log lines: an error is the phrase it is wrapped in and the answer.
- What admission does beyond adding annotations to an object being created: defaults that webhooks fill
  into a spec, and annotations stamped on an update. "Exactly what the desired state asks for" is to be
  read without them.
- A call that is made to fail answers with an unspecified error, never with a spurious NotFound,
  AlreadyExists or Conflict; those occur exactly when the store or a missing namespace warrants them.
- The `Server` class takes from its surroundings whether creating is barred; that this is so exactly
  where the namespace is missing is a matter of `Homes`. When a constraint's CRD is served is left open.
- Deletion is immediate: finalizers and deletion in the background are not part of this model.
- Quantity parsing: any partial function from strings.
- Capability detection, configuration, health server, and the wiring of clients: detection's result is
  an input.
- Tickers and intervals: a run is any sequence of syncs, with any heartbeats before each of their
  requests and after the last. Stopping in the middle of a sync is covered by the two machines, whose
  processes may crash at any call.
- RotateToken: nothing calls it.
- The Rego engine and Knative's sidecars: the three rules are predicates on the operator's own
  container.
- The call-by-call machine covers the store. The reports are covered by the sequential theorems.
- Integer widths: percentages, scales, ports and counts are unbounded.
- Naming.NamesCollide: lowercasing covers ASCII letters only; container IDs are UUIDs.
- SecurityPolicy.AllowedSigners and other payload fields that the code does not read.
- Environment steps of the call-by-call machine do not delete objects or change specs, so no claim is
  made for a cluster whose users edit the operator's objects during a run. The sequential theorems
  start from any store, hence after any such edit.
- Templates and constraints of other parties are judged by an arbitrary function of their rule text; that
  Gatekeeper may refuse a template for its name is not part of this model.
- Command line, YAML parsing and printing of the drift check; rule values that are not lists of strings.
- Python's sort algorithm: only one sorted arrangement exists, so an insertion sort stands for it.
- That "running" means the newest revision is serving, and removal of objects whose container is no
  longer listed: the code does neither (internal/reconciler/status.go:33).
