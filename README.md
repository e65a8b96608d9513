# kubernetes-events-generator, modelled in Dafny

This project models the generator framework of kubernetes-events-generator. The program defines three
generators and a manager. Its `init` registers only the deployment generator (main.go:74). The manager
runs whatever is registered, one round after another, forever:

- The **pod** and **deployment** generators are create-capable. Each cycle they attempt `seed` creates
  of mock resources, each carrying the provenance label `gen-by=<kubernetesEventsGenerator>`. They
  replay their event catalog verbatim against every resource whose create succeeded. Then one bulk
  delete, when it succeeds, removes the labelled resources of the generator's own kind.
- The **node** generator is read-only. It lists the cluster's real nodes and records every catalog
  entry against every node, catalog-major and node-minor. Where a message contains `%s`, the node's
  name takes its place.
- A **GeneratorManager** keeps a registry of generators keyed by `Name()`. One round of its run loop
  calls `Generate` once on every registered generator.

The cluster API and the event recorder become two classes:

- `Cluster.Api` holds the namespace's resources, the real nodes and the log of calls made.
- `Cluster.Recorder` holds the append-only event log.
- `Cluster.History`, shared by the two, holds the calls and the events in the one order they happened.
  It exists only in the model. Each generator's contract states its history, so it says that each
  replay follows its own create and comes before the next create, that the deferred delete comes
  after every event, and that the node listing comes before the node events.

The random names and the cluster's answers are inputs, gathered in an `Outcomes` value: the names
`rand.String` draws for the mock resources, and, from the cluster, whether each create succeeds,
whether the bulk delete succeeds and whether the node listing succeeds.

The modules follow the source files:

| module | file | what it holds |
|---|---|---|
| `Events` | — | event records, emissions, verbatim replay, `%s` templating (`Render`) and its well-formedness |
| `Cluster` | — | the `Api` and `Recorder` classes, label selectors, call counts, `Outcomes` |
| `CreateCycle` | pod.go, deploy.go | the create, skip-on-failure and replay loop the pod and deployment generators share, with its specification functions |
| `PodCatalog`, `PodGen` | pod.go | the 44-entry pod catalog and the pod generator |
| `DeployCatalog`, `DeployGen` | deploy.go | `minSeed`, the 13-entry deployment catalog and the deployment generator |
| `NodeCatalog`, `NodeGen` | node.go | the 45-entry node catalog, the proof that every node message is well-formed, and the node generator |
| `Manager` | main.go | the `Generator` interface as a datatype (the three generators, or any other implementor known by its name), the registry, one round of `run`, and startup |

Three consequences of the code are worth stating outright:

- `NewPodGenerator` raises any seed up to 5 to 5 (pod.go:325-327), so a request for 3 pods makes 5
  creates (`SecondCreateFails`).
- pod.go:303 and deploy.go:160 pass catalog messages unchanged, verbs included, so two pod messages are
  recorded with their `%d`/`%s` verbs (`PodMessagesNotFormatted`). Only the node generator fills in
  `%s` (node.go:286-287).
- The pod and deployment loops are subject-major: one whole catalog per created resource
  (`PodCycleReplays`). The node loops are catalog-major (`NodeLogAt`).

## Model

| member | source | states |
|---|---|---|
| Events.ReplayAt | pod.go:302-305 | replaying a catalog against a subject yields one emission per entry; the j-th is entry j, verbatim, against that subject |
| Events.ReplayReasons | pod.go:302-305 | the reason codes recorded for one subject are exactly the catalog's reason codes, in order |
| Events.RenderFirst | node.go:286-287 | any message containing `%s` renders with its first `%s` replaced by the name, and the text on both sides kept |
| Events.RenderSplit | node.go:286-287 | a message whose first `%s` follows text `p` is detected as containing `%s` and renders to `p + name + q` |
| Events.SinglePlaceholder | node.go:286-290 | '%'-free text around one `%s` holds exactly one placeholder and renders to that text around the name |
| Events.NoPercentCount | node.go:288-289 | a '%'-free message holds no placeholder, so it takes the verbatim branch |
| Events.WellFormedRender | node.go:286-290 | a well-formed template holds at most one `%s`; without one it is emitted unchanged; with one, the name replaces it and both sides stay intact |
| Cluster.Cleaned | pod.go:312-314 | a successful label-selector delete of a kind removes exactly the resources of that kind the selector selects, and keeps everything else |
| Cluster.Api.Create | pod.go:274-296 | a create is logged, and appended to the shared history; on success the object is added and handed back; on failure nothing changes and nothing is returned |
| Cluster.Api.DeleteCollection | pod.go:312-314 | a bulk delete is logged, and appended to the shared history; on success the selected resources of that kind are gone; on failure the namespace is unchanged |
| Cluster.Api.ListNodes | node.go:279-283 | a listing is logged, appended to the shared history, and returns the current nodes, or nothing when it fails; the namespace and nodes are unchanged |
| Cluster.Recorder.Event | pod.go:303 | recording appends exactly one emission to the event log, and the same emission to the shared history |
| CreateCycle.SuccessfulMembers | pod.go:272-305 | the resources that get events are exactly those of the iterations whose create succeeded; there are as many as successes; they are the set the cycle adds to the namespace |
| CreateCycle.CreateCallsAt | pod.go:272-274 | a cycle makes one create call per iteration, for that iteration's object, and no delete |
| CreateCycle.CycleLogLength | pod.go:302-305 | a cycle records (successes × catalog length) events |
| CreateCycle.CycleLogBlocks | pod.go:272-306 | subject-major order: the cycle's log is one full catalog replay per created resource, in creation order, with nothing in between |
| CreateCycle.CycleLogEntries | pod.go:298-305 | every recorded event is a catalog entry, verbatim, against a resource whose create succeeded |
| CreateCycle.FailedCreatesRecordNothing | pod.go:298-301 | when every create fails, no event is recorded and nothing is added |
| CreateCycle.CleanupAfterCycle | pod.go:312-314 | created resources carry the selected label, so a successful delete after the cycle leaves what it would have left before it: no selected resource of that kind survives, everything else stays |
| CreateCycle.ReplayAll | pod.go:302-305 | the replay loop appends the catalog's emissions, verbatim and in order, against the subject, to the log and to the history, with no call in between |
| CreateCycle.CreateAndReplay | pod.go:274-305 | one iteration: the create call, then, only when it succeeds, the whole replay against that object; a failed create adds nothing and records nothing |
| CreateCycle.AttemptProjects | pod.go:274-305 | one iteration's history holds exactly its create call and, when the create succeeded, that object's replay |
| CreateCycle.CycleHistoryProjects | pod.go:272-305 | a cycle's history holds exactly the cycle's create calls and its log, so it orders the same calls and events, each replay between its own create and the next one |
| CreateCycle.CreateEach | pod.go:272-306 | the loop `for i := 0; i < seed; i++` makes exactly `seed` creates (none for a negative seed) and no delete, one per iteration for that iteration's object; it adds exactly the created objects, leaves the nodes alone, and appends the cycle log, skipping failed creates; the history holds each create followed at once by its replay |
| PodGen.PodObject | pod.go:274-296 | a mock pod has the drawn name, kind Pod and exactly the provenance label, which the cleanup selector selects |
| PodGen.PodObjects | pod.go:272-274 | one mock pod per drawn name, in order: the i-th is `PodObject` of the i-th name, labelled for cleanup |
| PodGen.NewPodGenerator | pod.go:324-333 | the seed is at least minSeed (5) and at least the request, and is either the request or minSeed |
| PodGen.PodGenerator.Name | pod.go:266-268 | the registry name is non-empty |
| PodGen.PodGenerator.Initialize | pod.go:271-308 | initialize makes `seed` creates, one per drawn name, adds the created pods, and records the catalog against each created pod right after its create |
| PodGen.PodGenerator.Finalize | pod.go:311-320 | finalize issues one label-selector bulk delete of pods, whatever initialize did, and records no event |
| PodGen.PodGenerator.Generate | pod.go:260-263 | Generate's calls, namespace and events are initialize's followed by finalize's, and its history is the create loop's followed by the deferred delete |
| PodGen.PodCycleHistory | pod.go:260-263 | a pod cycle's history holds exactly its calls and its events; its last step is the bulk delete, and every event comes before it |
| PodGen.PodCycleCounts | pod.go:260-263 | one pod cycle makes `seed` creates and exactly one delete, which is the last call, and records 44 events per successful create |
| PodGen.PodCycleReplays | pod.go:302-305 | a pod cycle's events are one full catalog per created pod, in creation order; each is a catalog entry, verbatim, against a pod whose create succeeded |
| PodGen.AllCreatesFail | pod.go:298-301 | when every create fails, no event is recorded, and only the bulk delete acts on the namespace |
| PodGen.PodCleanup | pod.go:312-314 | after a successful delete no labelled pod remains and everything else is as before; after a failed delete the created pods stay |
| PodGen.FormattingVerbs | pod.go:61-113 | two pod catalog messages contain `%s`: the WarnAlreadyMountedVolume message (line 61) and the FailedValidation message (line 113) |
| PodGen.PodMessagesNotFormatted | pod.go:303 | pod messages with `%s`/`%d` verbs are recorded exactly as written |
| PodGen.DuplicateEntriesReplayed | pod.go:216-242 | the FailedScheduling entry listed twice is recorded twice for every pod (no deduplication) |
| PodGen.SecondCreateFails | pod.go:271-320 | a request for 3 pods makes 5 attempts; with the second create failing, 176 events, 5 creates and 1 delete, and no labelled pod afterwards |
| PodCatalog.PodEventsLayout | pod.go:20-249 | the catalog has 44 entries, the formatting-verb messages at 7 and 17, and the same FailedScheduling entry at 38 and 42 |
| DeployGen.DeploymentObject | deploy.go:115-152 | a mock deployment has the drawn name, exactly the provenance label, 2 replicas, and selector labels and pod template labels both exactly `{app: name}` |
| DeployGen.DeploymentObjects | deploy.go:113-115 | one mock deployment per drawn name, in order |
| DeployGen.NewDeploymentGenerator | deploy.go:181-195 | the seed is at least minSeed (5) and at least the request, and is either the request or minSeed |
| DeployGen.DeploymentGenerator.Name | deploy.go:100-102 | the registry name is non-empty |
| DeployGen.DeploymentGenerator.Initialize | deploy.go:112-166 | initialize makes `seed` creates, one per drawn name, adds the created deployments, and records the catalog against each created deployment right after its create |
| DeployGen.DeploymentGenerator.Finalize | deploy.go:169-178 | finalize issues one label-selector bulk delete of deployments, whatever initialize did, and records no event |
| DeployGen.DeploymentGenerator.Generate | deploy.go:105-109 | Generate's calls, namespace and events are initialize's followed by finalize's, and its history is the create loop's followed by the deferred delete |
| DeployGen.DeploymentCycleHistory | deploy.go:105-109 | a deployment cycle's history holds exactly its calls and its events; its last step is the bulk delete, and every event comes before it |
| DeployGen.DeploymentCycleCounts | deploy.go:105-109 | one deployment cycle makes `seed` creates and exactly one delete, which is the last call, and records 13 events per successful create |
| DeployGen.DeploymentCycleReplays | deploy.go:159-162 | a deployment cycle's events are one full catalog per created deployment, in creation order, each verbatim |
| DeployGen.AllCreatesFail | deploy.go:154-157 | when every create fails, no event is recorded, and only the bulk delete acts on the namespace |
| DeployGen.DeploymentCleanup | deploy.go:170-172 | after a successful delete no labelled deployment remains and everything else is as before; after a failed delete the created deployments stay |
| DeployGen.CreatedDeploymentsSelectTheirPods | deploy.go:123-133 | every created deployment runs 2 replicas, and its selector's matchLabels and its template labels are both exactly `{app: <its name>}` |
| NodeGen.NodeRowAt | node.go:285-292 | one catalog entry is recorded against each node, in node order |
| NodeGen.NodeLogLength | node.go:284-293 | a listing cycle records (catalog length × node count) events |
| NodeGen.NodeLogAt | node.go:284-293 | catalog-major, node-minor: event number (i × node count + j) is entry i against node j |
| NodeGen.NodeMessageRendering | node.go:286-290 | a node sees each entry's type and reason; its message is unchanged without `%s`; with `%s`, the name replaces its single placeholder |
| NodeGen.PatternMessagesVerbatim | node.go:74-126 | the log-pattern messages (OOMKilling, TaskHung, UnregisterNetDevice, CorruptDockerImage) hold no `%s` and are recorded byte for byte |
| NodeGen.TemplatedMessagesRender | node.go:24-196 | the DeletingAllPods message (line 24) and the NodeRebooted message (line 196) hold exactly one `%s`, and render with the node's name in its place |
| NodeGen.NodeGenerator.Name | node.go:272-274 | the registry name is non-empty |
| NodeGen.NodeGenerator.Initialize | node.go:277-296 | initialize makes one listing call and never touches the namespace; it records nothing when listing fails, and every entry against every node otherwise, all after the listing |
| NodeGen.NodeGenerator.RecordAll | node.go:284-293 | the nested loops append the catalog-major, node-minor log, with `%s` messages rendered, to the log and to the history, with no call in between |
| NodeGen.NodeGenerator.Generate | node.go:266-269 | Generate is initialize alone: one listing, no create, no delete, namespace unchanged; the history is the listing followed by the cycle's events |
| NodeGen.NodeCycleHistory | node.go:277-293 | a node cycle's history starts with the listing, and every later step is a recorded event; it holds exactly that call and the cycle's events |
| NodeGen.NodeCycleLength | node.go:279-293 | a node cycle records 45 events per node when listing succeeds, and none when it fails or there are no nodes |
| NodeGen.ListingCreatesNothing | node.go:279 | the listing call is neither a create nor a delete |
| NodeCatalog.NodeControllerEventsWellFormed | node.go:21-70 | every message of the node-controller entries is a well-formed template |
| NodeCatalog.KernelProblemEventsWellFormed | node.go:71-110 | every message of the kernel-problem entries is a well-formed template |
| NodeCatalog.HealthEventsWellFormed | node.go:113-162 | every message of the health-condition entries is a well-formed template |
| NodeCatalog.KubeletEventsWellFormed | node.go:163-192 | every message of the kubelet entries is a well-formed template |
| NodeCatalog.RebootAndEvictionEventsWellFormed | node.go:193-255 | every message of the reboot, allocatable, disk, route and eviction entries is a well-formed template |
| NodeCatalog.NodeTemplatesWellFormed | node.go:20-256 | every node message is '%'-free (recorded as written), or '%'-free text around exactly one `%s`, which `fmt.Sprintf(message, name)` fills with the name |
| Manager.Generator.Name | main.go:28 | the program's own three generators have non-empty registry keys; any other implementor reports its own name, which may be empty |
| Manager.Generator.Generate | main.go:38 | Generate dispatched through the interface has the cycle's calls, namespace, events and history of the generator behind it |
| Manager.GenerateHistory | main.go:38 | whichever generator is behind the interface, its cycle's history holds exactly its calls and its events |
| Manager.GenerateCounts | main.go:38 | one Generate makes `seed` creates and one delete for a create-capable generator, and no create or delete for the node generator; an implementor from outside the program is modelled as making no call |
| Manager.Registered | main.go:27-31 | a generator with an empty name (possible for an implementor outside the program) leaves the registry unchanged; otherwise the generator is stored under its name, overwriting; every other key and value is kept; keys stay equal to their generators' names |
| Manager.DistinctNames | main.go:29 | the three generators' names are pairwise distinct, so registering all three gives three entries |
| Manager.RoundDeletes | main.go:36-39 | a round makes exactly one bulk delete per create-capable generator it visits |
| Manager.RoundStep | main.go:36-39 | visiting one more generator extends the round's calls, events, namespace and history by that generator's cycle |
| Manager.RoundHistoryProjects | main.go:36-39 | a round's history holds exactly the round's calls and events, each generator's cycle kept together, in visiting order |
| Manager.VisitOrder | main.go:36 | the visiting order holds each registry key exactly once, in an order left open |
| Manager.Visit | main.go:36-39 | one iteration calls Generate on the named generator and extends the round's state, history included, by its cycle |
| Manager.GeneratorManager.constructor | main.go:71-73 | the manager starts with an empty registry |
| Manager.GeneratorManager.Register | main.go:27-31 | register updates the registry as `Registered` says and keeps keys equal to names |
| Manager.GeneratorManager.RunRound | main.go:36-39 | one round visits every registered generator exactly once, in some order, and the calls, namespace, events and history are those of their cycles in that order |
| Manager.GeneratorManager.Startup | main.go:71-74 | init's registry holds only the deployment generator, under its name, with seed 0 raised to 5 |
| Manager.StartupRegistry | main.go:74 | the startup registry is the deployment generator with seed 5, and a round over it makes 5 creates and 1 delete |

## Left out

- Connection setup in `init` (main.go:45-70) is left out: kubeconfig resolution, clientset construction, the event broadcaster and sink, and their panics. These are I/O and foreign library calls; the model starts from an `Api` and a `Recorder`.
- `run`'s outer `for {}` (main.go:34-40) never returns. The model proves one round (`RunRound`); rounds repeat with no state carried between them other than the cluster and the log.
- Go's map iteration order is nondeterministic. `VisitOrder` picks any order of the keys, and every round property holds for all of them.
- `rand.String(15)` (pod.go:273, deploy.go:114) is randomness. The drawn names are inputs (`Outcomes.names`), and they need not be distinct.
- The `time.Sleep` pacing calls (pod.go:304, deploy.go:161, node.go:291) are left out. They have no logical effect.
- All `fmt.Printf` logging is left out, including the "Create %d … successfully" lines, which report `seed` rather than the number of successes.
- The value of `kubernetesEventsGenerator` is defined outside these files. `Cluster.ProvenanceValue` is one shared constant with no text, and only its being the same at create and cleanup matters.
- The `Generator` interface and `int32Ptr` are also defined outside these files. The interface is the `Manager.Generator` datatype: the three generators of this program, or any other implementor (`Other`), known by its name. The replica count 2 is stored directly.
- Reason codes that pod.go, node.go and deploy.go take from the kubelet events and deployment util packages are written as those constants' names.
- Kubernetes objects keep only their kind, name, labels, and (for deployments) replicas, selector labels and template labels. Containers, images and ports are left out.
- `Create` is modelled as returning the object it was given.
- A failed DeleteCollection leaves the namespace unchanged. The real API may delete part of the collection before failing.
- General `fmt.Sprintf` is not modelled. `Render` substitutes the first `%s`, and `NodeTemplatesWellFormed` proves that every node message is either '%'-free or holds a single `%s` and no other verb. `Render` and `Sprintf` agree on '%'-free text around a single `%s`. '%'-free messages never reach `Sprintf`, because node.go:286 tests `strings.Contains(message, "%s")` first.
- Manager.Generator.Generate: an `Other` generator stands for an implementor of the interface defined outside this program. Only its name matters to `register`, and its Generate is modelled as making no call and recording nothing.
- Manager.Generator.Name: for the three generators, promises only a non-empty name; the exact strings are the catalog constants `PodGeneratorName`, `DeploymentGeneratorName` and `NodeGeneratorName` (pod.go:16, deploy.go:18, node.go:16), and `DistinctNames` proves that the three differ.
- PodGen.PodGenerator.Name: promises only a non-empty name, for the same reason.
- DeployGen.DeploymentGenerator.Name: promises only a non-empty name, for the same reason.
- NodeGen.NodeGenerator.Name: promises only a non-empty name, for the same reason.
- The per-message shape lemmas in `NodeCatalog` (one per distinct message, such as `DeletingNodeMessageShape`) are steps of `NodeTemplatesWellFormed` and have no row of their own.
