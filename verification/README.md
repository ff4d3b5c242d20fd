# The free5GC operator, modelled and verified

The operator keeps three free5GC network functions (AMF, SMF, UPF) running on a cluster. Each is described by an
NFDeployment. For every NFDeployment the operator keeps a ConfigMap, a Service (AMF and SMF) and a Deployment of the
same name, writes a status back, and attaches pods to networks through an annotation that a validator reads again
before a Deployment is created. This project models that behaviour in Dafny and proves what it guarantees.
`dafny verify dfyconfig.toml` checks everything.

## How the model is laid out

The project has three layers.

*Building.* `Text`, `Json`, `Interfaces`, `Networks`, `Annotations`, `Instances`, `UpfResources`, `SmfResources` and
`Resources` hold what is computed from a spec: the network annotation and its reader, the selection of interfaces and
network instances, the rendered configuration, the pod template. `Status` holds the status machine. Loops of the
source are loops here, each proved against a function, and the theorems are about those functions.

*Passing.* `Objects` and `Server` hold the cluster: a store whose single counter numbers the versions of all objects,
the calls of the API, and around each call the steps of other writers (`EnvStep`) and a fault. A call may be refused,
or may take effect while its reply is lost. Refusing all calls from some point on models a crash in the middle of a
pass. `ApiServers.ApiServer` is that server as an object, `Reconcilers` holds the four reconcilers as classes whose
`Reconcile` methods follow the source step by step, and `Passes` says what each does as a function of a `World` (a
store, the schedule of disturbances, and a trace of all stores). Each method is proved equal to its pass function,
faults and other writers included.

*Running.* The theorems about whole runs rest on two views of a pass.

- `Steps`, `PassSteps`, `Runs` and `Frames` give the step relation. The trace marks where each pass begins. Every later
  mark of the pass is a step of another writer, a read, a write without effect, or one of five writes that earlier
  marks of the same pass justify, by its last reads and by the kind its dispatcher found. Every run has a legal trace
  (`History.LegalRun`); `History`, `StatusHistory` and `DeploymentHistory` prove what legal traces keep. Nothing is
  assumed there about faults or about when others act, except where a lemma says so.
- `Locals` and `Calm` give the pass that nothing disturbs, in closed form over the objects under one name. Time passes
  during it and other objects are written; the clock and the versions it meets are its `Moment`. `Convergence`,
  `Quiescence`, `Outcomes` and `Repeats` build on it; `Failures` says what is left of it when calls fail or others
  interfere.

`Renamings`, `Views` and `Isolation` prove that names do not interfere, up to an injective renaming of versions.
`References` holds the Config references of a spec.

Four observations on the source come out of the proofs. A Deployment that keeps failing (`ReplicaFailure` first) adds
a `Stalled` condition on every pass, so the status log grows without bound: convergence holds exactly when this is not
so (`Convergence.RankZero`, `Convergence.GrowsForever`). An annotation with a character that Go's `%q` escapes in a way
JSON does not know cannot be read back, so the gate stays shut: the round trip holds exactly when there is none
(`Networks.AnnotationRoundTrip`). An AMF pass that recreates a missing ConfigMap leaves the old, empty version
annotation for one more pass (`Quiescence.QuietAmfPass`). And since any failing read counts as absence, one failed read
of a ConfigMap rolls the pods of a Deployment although nothing changed (`Failures.FailedReadRollsPods`).

The comment of `createNfDeploymentStatus` speaks of the *last* condition of the Deployment; the code takes the *first*
(`controllers/nf/upf/status.go:52-53`). The model follows the code. The reader's struct has the keys `ip` and `gateway`
where the printer writes `ips` and `gateways`; the model keeps that too, and the addresses are lost in reading.

## Model

| member | source | states |
|---|---|---|
| `Interfaces.GetInterfaceConfigs` | controllers/interface_configs.go:26-36 | the loop returns all interfaces of the name, in spec order |
| `Interfaces.GetFirstInterfaceConfig` | controllers/interface_configs.go:38-46 | the loop returns the first interface of the name, or an error carrying the name |
| `Interfaces.GetFirstInterfaceConfigIPv4` | controllers/interface_configs.go:48-60 | the address of the first match, with the search error and the parse error kept apart |
| `Interfaces.FirstIsHead` | controllers/interface_configs.go:26-46 | the first-match search succeeds exactly when the filter is non-empty, and then returns its head |
| `Text.SortStrings` | controllers/network_attachment_definitions.go:57 | sorting returns a sorted permutation |
| `Text.SortedUnique` | controllers/network_attachment_definitions.go:52-57 | sorted sequences with the same content are equal, so the result is the same for every iteration order of the map |
| `Networks.SortedKeys` | controllers/network_attachment_definitions.go:52-57 | collecting the keys in any order and sorting them gives one fixed sequence |
| `Networks.CreateNetworkAttachmentDefinitionNetworks` | controllers/network_attachment_definitions.go:49-80 | whatever order the map is iterated in, the text is the print of the entries of the groups in sorted key order, or the error of the first group with an interface that lacks a gateway |
| `Networks.AnnotationRoundTrip` | controllers/network_attachment_definitions.go:66-79 | parsing the printed annotation as JSON (sections 4, 5 and 7 of RFC 8259) gives back exactly the entries in order, the empty list included, if and only if every character has an escape that JSON knows; otherwise it fails |
| `Networks.AnnotationInjective` | controllers/network_attachment_definitions.go:66-79 | different readable entry lists never print to the same annotation |
| `Networks.UnmarshalPrinted` | controllers/network_attachment_definitions.go:42-47 | decoding a printed annotation into the validator's struct recovers every name and interface and leaves both addresses empty |
| `Json.QuoteReadsBack` | controllers/network_attachment_definitions.go:66-75 | what `%q` prints reads back as a JSON string exactly when each escape is one JSON knows |
| `Annotations.CreateUpfNetworks` | controllers/nf/upf/resources.go:246-253 | the UPF's annotation is the grouped print for n3, n4, n6 and n9 |
| `Annotations.CreateSmfNetworks` | controllers/nf/smf/resources.go:280-284 | the SMF's annotation is the grouped print for n4 |
| `Annotations.CreateAmfNetworks` | controllers/nf/amf/resources.go:240-244 | the AMF's annotation is the grouped print for n2 |
| `Annotations.AttachedAre` | controllers/nf/upf/resources.go:246-253 | the attached interfaces are n3, n4, n6 and n9 for a UPF, n4 for an SMF, n2 for an AMF |
| `Annotations.StableSortUnique` | controllers/network_attachment_definitions.go:52-77 | a list sorted by name that keeps each name's interfaces in their order is determined by those groups: there is one stable sort |
| `Annotations.AnnotationIsStableSort` | controllers/network_attachment_definitions.go:49-80 | the entries are the stable sort by name of the attached interfaces of the spec, each once; building fails exactly when one of them lacks a gateway, naming the least such interface |
| `Annotations.ValidatedNames` | controllers/network_attachment_definitions.go:82-109 | the names the validator looks up are exactly `<nf>-<interface>` for the spec's attached interfaces |
| `Instances.GetNetworkInstances` | controllers/nf/upf/resources.go:255-271 | the nested loop returns the instances that list the interface, and reports success exactly when one does |
| `Instances.ListingOrder` | controllers/nf/upf/resources.go:255-264 | selection goes through the instances in spec order and takes each exactly as often as it lists the interface |
| `Instances.RowsOrder` | controllers/nf/upf/templates.go:36-41 | a nested template range goes through the instances in order and through the data networks of each in order |
| `UpfResources.CreateConfigMap` | controllers/nf/upf/resources.go:142-205 | stepwise construction gives the ConfigMap data of `UpfConfigMapHolds` in the source's order of errors, with the nil dereference on a missing n6 gateway |
| `UpfResources.UpfConfigMapHolds` | controllers/nf/upf/templates.go:36-72 | what is rendered: the addresses of the first n4 and n3 and the gateway of the first n6 interface; per data network, in order, an entry of first pool, name and first interface and a masquerade rule, then a source rule and a default route by that gateway each; nothing else |
| `UpfResources.UpfBuilds` | controllers/nf/upf/resources.go:142-187 | the exact condition on the spec for building the ConfigMap, and the exact one for the nil dereference |
| `UpfResources.TemplatesAgree` | controllers/nf/upf/templates.go:35-72 | the three template loops fail on the same rows, so the wrapper script renders whenever the configuration does |
| `UpfResources.UpfRendersIffPools` | controllers/nf/upf/templates.go:35-72 | once interfaces resolve and an n6 instance exists, rendering succeeds if and only if every data network of an n6 instance has a pool; the index into the instance's interfaces never fails |
| `SmfResources.IsDuplicate` | controllers/nf/smf/reconciler.go:56-62 | the inner loop finds a duplicate exactly when a kept reference has the same namespace and name |
| `SmfResources.ExtractConfigRefUPFDeployments` | controllers/nf/smf/resources.go:300-327 | the loop returns the decoded documents, skipping typed objects of other kinds, or an error at the first that cannot be decoded |
| `SmfResources.PeersAreDecoded` | controllers/nf/smf/resources.go:300-327 | the documents are the decoded payloads in order, without typed objects of other kinds; extraction fails exactly when one of those payloads does not decode |
| `SmfResources.CreateConfigMap` | controllers/nf/smf/resources.go:170-242 | stepwise construction gives the data of `SmfConfigMapHolds`, in the source's order of errors |
| `SmfResources.SmfConfigMapHolds` | controllers/nf/smf/templates.go:89-141 | what is rendered: the SMF's name and the address of its first n4 interface; for the i-th document an access node gNB<i>, a node with the document's name, its first n4 and n3 addresses and, in three slices, the pools 0, 1 and 2 of its n6 data networks in order, and a link between the two; nothing else |
| `SmfResources.SmfBuilds` | controllers/nf/smf/resources.go:174-218 | the exact condition on the spec and the references for building the ConfigMap |
| `SmfResources.SmfRendersIffPools` | controllers/nf/smf/templates.go:89-129 | once interfaces and peers resolve, rendering succeeds if and only if every data network of an n6 instance of a peer has at least three pools |
| `SmfResources.NodeNamesDistinct` | controllers/nf/smf/templates.go:89-136 | all upNodes keys are distinct if and only if peer names are distinct and none is a generated access-node name |
| `SmfResources.LinksMatchNodes` | controllers/nf/smf/templates.go:137-141 | the links are a perfect matching: one per peer, each joins a declared access node to a declared UPF node, and every node ends exactly one link |
| `Text.DecimalInjective` | controllers/nf/smf/templates.go:90 | different indices print to different numerals |
| `Text.DecimalReads` | controllers/nf/smf/templates.go:90 | a numeral consists of digits, has no leading zero and stands for its index |
| `Resources.CreateConfigMap` | controllers/nf/amf/resources.go:163-200 | the ConfigMap data of each network function; for the AMF, the address of the first n2 interface or its error |
| `Resources.AmfConfigMapHolds` | controllers/nf/amf/resources.go:163-176 | the AMF's ConfigMap holds its name and the address of its first n2 interface, and is built exactly when that has one |
| `Resources.CreateDeployment` | controllers/nf/upf/resources.go:31-140 | the steps give the template of `TemplateHolds`, or the annotation's error |
| `Resources.TemplateHolds` | controllers/nf/upf/resources.go:43-50 | for any stable sort of the attached interfaces: the template carries the print of their entries (name `<nf>-<interface>`, interface, address, gateway), the ConfigMap's version and no other annotation, the image of its kind and the size for its capacity; it is built exactly when all have a gateway |
| `Resources.SizeThresholds` | controllers/nf/amf/resources.go:214-224 | the larger size starts right above the thresholds of each kind and is kept by every larger capacity |
| `Resources.FirstEntryIsFirstInterface` | controllers/interface_configs.go:38-46 | the first annotation entry for an attached name comes from the interface the configuration search finds |
| `Resources.UpfConfigurationMatchesAnnotation` | controllers/nf/upf/resources.go:146-168 | when both builds succeed, the PFCP and GTPU addresses are those of the first n4 and n3 interfaces, which are behind the first n4 and n3 entries of the annotation, and the n6 gateway is that of the first n6 entry |
| `Resources.AddressMatchesAnnotation` | controllers/nf/smf/resources.go:174-183 | for AMF and SMF too, the configured address is that of the interface behind the first annotation entry of its name |
| `Status.CreateNfDeploymentStatus` | controllers/nf/upf/status.go:27-95 | branches and early returns give the next status and the update request |
| `Status.AppendedSays` | controllers/nf/upf/status.go:39-93 | an appended condition carries the pass's time, is true exactly when it is Available, follows the Deployment's first condition (Available, Progressing as Reconciling, ReplicaFailure as Stalled; Reconciling in an empty log), with the reason and message that go with it |
| `Status.StatusClosedForm` | controllers/nf/upf/status.go:37-94 | over any observations, an empty log becomes Reconciling followed by the changes among the later meanings; absent and unknown conditions are dropped, Stalled is never suppressed |
| `Status.SyncKeepsLog` | controllers/nf/upf/status.go:38-94 | one synchronisation appends at most one condition and keeps the log's order and shape |
| `Status.StatusSettles` | controllers/nf/upf/status.go:38-64 | under a fixed healthy or absent condition, at whatever times and generations, at most two passes (one if the log was non-empty) ask for an update, and none changes the status after them |
| `Status.FailureGrowsForever` | controllers/nf/upf/status.go:85-94 | any number of passes at any times, each seeing ReplicaFailure first, grow the log by exactly one condition each |
| `Reconcilers.ValidateNetworkAttachmentDefinitions` | controllers/network_attachment_definitions.go:88-112 | the loop accepts exactly when the annotation parses and every name is found, stopping at the first miss; same calls, same trace as the specification |
| `Reconcilers.SyncStatusOf` | controllers/nf/upf/reconciler.go:163-172 | writes the next status only when one is asked for, with the version that was read |
| `Reconcilers.SMFDeploymentReconciler.GetAllConfigRefs` | controllers/nf/smf/reconciler.go:47-72 | the nested loop fetches in order, keeps the first of each name and stops at the first failing read |
| `Reconcilers.UPFDeploymentReconciler.Reconcile` | controllers/nf/upf/reconciler.go:51-161 | outcome and resulting world are those of the UPF pass function, for every schedule of faults and other writers |
| `Reconcilers.AMFDeploymentReconciler.Reconcile` | controllers/nf/amf/reconciler.go:52-180 | the same for the AMF, whose Deployment is never replaced |
| `Reconcilers.SMFDeploymentReconciler.Reconcile` | controllers/nf/smf/reconciler.go:83-216 | the same for the SMF, with its references |
| `Reconcilers.NFDeploymentReconciler.Reconcile` | controllers/nf/reconciler.go:70-111 | dispatch by provider: the world and the outcome of `Dispatch`, which `DispatchEnds` and `DispatchErrs` pin down |
| `Outcomes.DispatchEnds` | controllers/nf/reconciler.go:97-110 | by the objects in the store, how an undisturbed pass ends for the work queue: again at once when annotation and live ConfigMap version differ, after 30 seconds when everything builds and every definition is there for a missing Deployment, after 10 when one is not, a panic for nil annotations or a nil n6 gateway, and not again otherwise, failed builds included |
| `Outcomes.DispatchErrs` | controllers/nf/reconciler.go:73-106 | under every schedule an error is reported exactly when the dispatcher's own read failed |
| `PassSteps.ReconcileRan` | controllers/nf/smf/reconciler.go:83-216 | under any faults and other writers, every mark of a pass is another writer's step, a read, a write without effect, or a write justified by the pass's own last reads; a created SMF ConfigMap is rendered from exactly the first occurrences of the spec's references, as this pass read them |
| `Runs.RunIsLegal` | controllers/nf/reconciler.go:70-111 | every mark of any sequence of dispatched passes begins a pass or is such a step of the pass that began last, and its writes are those of the kind that pass's dispatcher found |
| `History.LegalRun` | controllers/nf/reconciler.go:70-111 | every run leads from its first store to its last by a legal trace, so the theorems on legal traces hold of all runs |
| `Frames.StepFrame` | controllers/nf/smf/reconciler.go:83-227 | no step of a pass touches another name, an attachment definition, a Config or a spec, deletes anything, or alters an existing ConfigMap or Service |
| `Frames.RunFollows` | controllers/nf/amf/reconciler.go:72-173 | along a run, versions of each name only advance, and each object stays as it is except for the named writes |
| `History.ConfigMapProvenance` | controllers/nf/amf/reconciler.go:103-124 | unless someone else puts the ConfigMap, it is the initial one or one that a single pass created: the rendering, for the kind it was dispatched to, of the spec it last read and of that spec's own references, each read by that pass |
| `History.ConfigMapStays` | controllers/nf/amf/reconciler.go:72-124 | without outside edits an existing ConfigMap never changes, even when reads fail and the operator takes it for missing |
| `History.AnnotationIsReal` | controllers/nf/upf/reconciler.go:67-155 | the version annotation is always empty or a version the ConfigMap of that name really had |
| `History.AnnotationNeverGoesBack` | controllers/nf/upf/reconciler.go:67-155 | apart from resets to empty the annotation never goes backwards, through edits, deletions, failing calls and recreated Deployments |
| `StatusHistory.LogStaysWellFormed` | controllers/nf/upf/status.go:32-94 | along every run each log starts with Reconciling, has non-decreasing times, and equal neighbours are both Stalled |
| `StatusHistory.LogOnlyGrows` | controllers/nf/upf/reconciler.go:163-172 | while the NFDeployment lives its log is append-only, by at most one condition per status write |
| `StatusHistory.ObservedIsExact` | controllers/nf/upf/status.go:28-35 | in every pass, under any disturbance, a status write stores the generation of the Deployment as that very pass last read it, or 2147483647 when it is larger |
| `StatusHistory.ObservedNeverAhead` | controllers/nf/upf/status.go:28-35 | without deletions the observed generation never exceeds the Deployment's, nor 2147483647 |
| `StatusHistory.ObservedNeverDecreases` | controllers/nf/upf/reconciler.go:163-172 | and it never decreases |
| `Quiescence.QuietPassObserves` | controllers/nf/upf/reconciler.go:163-172 | an undisturbed pass that writes the status ends with the generation the Deployment had before the pass, or 2147483647 when it is larger |
| `DeploymentHistory.CreationGate` | controllers/nf/smf/reconciler.go:149-203 | a Deployment is created only when, within the same pass, the ConfigMap and the Service were found or made and every `<nf>-<interface>` of the spec that pass last read was found; it is the desired one for that spec and a ConfigMap version of that pass |
| `DeploymentHistory.AmfDeploymentKept` | controllers/nf/amf/reconciler.go:103-173 | an AMF Deployment, once there, changes by the operator's hand only in its version annotation |
| `Calm.CalmReconcile` | controllers/nf/smf/reconciler.go:83-216 | an undisturbed pass of any kind has the closed form's outcome and objects, at a moment during the pass and with versions nothing had before, and leaves every other name alone |
| `Outcomes.GateOpens` | controllers/nf/smf/reconciler.go:184-199 | the other direction of the gate: an undisturbed pass without a Deployment, with data that builds, gateways, legible texts and all definitions, leaves a Deployment annotated for the spec and the live ConfigMap, with ConfigMap and Service |
| `Outcomes.GateStaysShut` | controllers/nf/smf/reconciler.go:200-203 | with everything else in place, a missing definition or an illegible text leaves no Deployment and asks for another pass |
| `Outcomes.RolledPassAgrees` | controllers/nf/upf/reconciler.go:95-105 | an undisturbed pass that asks to be repeated at once has brought the annotation to the live ConfigMap's version |
| `Outcomes.QuietPassSyncs` | controllers/nf/upf/reconciler.go:88-93 | an undisturbed pass leaves the status of a live Deployment synchronised at a time during the pass, and any other status alone |
| `Outcomes.StatusShows` | controllers/nf/upf/status.go:52-93 | after such a pass a non-empty log ends in what the Deployment's first condition says, and a failing one has grown by one |
| `Failures.FailedWriteEndsPass` | controllers/nf/smf/reconciler.go:123-209 | whatever is disturbed, a write without effect is the last thing a pass does; it ends the pass with an error when it was to the status, the ConfigMap or the Service or to roll the pods, and is only logged when it was to create or replace the Deployment |
| `Failures.FaultlessPassReplaces` | controllers/nf/smf/reconciler.go:204-209 | when a UPF or SMF pass whose calls succeed finishes, then whatever others did meanwhile, a Deployment still there is the desired one for the NFDeployment that pass read, without an owner |
| `Failures.FailedReadRollsPods` | controllers/nf/upf/reconciler.go:71-105 | when only the read of an existing ConfigMap fails, the pass empties the version annotation and asks to be repeated |
| `Convergence.RankZero` | controllers/nf/amf/reconciler.go:91-177 | unless a live Deployment keeps failing, an undisturbed pass at any moment changes nothing if and only if the measure is zero |
| `Convergence.RankDecreases` | controllers/nf/amf/reconciler.go:91-177 | and otherwise every pass, whenever it comes, strictly decreases the measure |
| `Convergence.RankBound` | controllers/nf/amf/reconciler.go:91-177 | the measure is at most three, or four when the first condition is of a type the operator does not know |
| `Convergence.AmfRecovery` | controllers/nf/amf/reconciler.go:103-177 | after a lost ConfigMap three whole AMF passes empty the annotation, recreate the ConfigMap and follow its new version, the first and third asking for another pass; a fourth leaves the three objects alone |
| `Convergence.Converges` | controllers/nf/upf/reconciler.go:83-160 | from every state, passes at any moments settle the objects within the measure, and no further passes change them |
| `Convergence.GrowsForever` | controllers/nf/upf/reconciler.go:83-93 | while a live Deployment keeps failing, passes at any moments add one condition each, so there is no fixpoint |
| `Quiescence.SettlesInThreePasses` | controllers/nf/reconciler.go:70-111 | for the whole store and any kind, with time passing and other objects being written: dispatched undisturbed passes change nothing any more after the third (fourth) |
| `Quiescence.FailingNeverSettles` | controllers/nf/reconciler.go:70-111 | the same run with a failing Deployment grows the stored log by one per pass |
| `Quiescence.QuietPassRefines` | controllers/nf/upf/reconciler.go:83-160 | a UPF or SMF pass that ends without error or requeue leaves the Deployment desired for the current spec and annotated with the live ConfigMap's version, and without an owner |
| `Quiescence.QuietAmfPass` | controllers/nf/amf/reconciler.go:91-179 | for the AMF the versions agree exactly when the ConfigMap was there before the pass; otherwise the next pass repairs it, given an annotation map to write to |
| `Isolation.DispatchTwins` | controllers/nf/reconciler.go:70-111 | a pass does the same and ends the same, up to versions, in any two worlds that agree under its name, in the surroundings and in the clock, whatever is disturbed in both |
| `Isolation.ForeignPass` | controllers/nf/smf/reconciler.go:83-227 | seen from another name, a pass is nothing but the steps other writers take during it |
| `Isolation.NonInterference` | controllers/nf/smf/reconciler.go:83-227 | after any interleaving of passes over any names, under any faults and other writers, the objects under a name are, up to an injective renaming of versions, those its own passes leave when the others are replaced by what other writers did during them |
| `Isolation.OwnPassesSuffice` | controllers/nf/smf/reconciler.go:83-227 | and simply those its own passes leave, when others touch neither the name nor anything shared during the other passes |
| `Isolation.PassesCommute` | controllers/nf/smf/reconciler.go:83-227 | passes for different names during which others mind the pass's own name commute, under every name, up to versions |
| `Isolation.PassesCommuteExactly` | controllers/nf/smf/reconciler.go:83-227 | in general two passes commute under a name if and only if the own pass commutes with what other writers do during the other one |
| `References.ResolveKeepsFirsts` | controllers/nf/smf/reconciler.go:47-72 | the fetched references are the first occurrences in order, none repeated, none lost, with their Config's content; nothing is returned exactly when a Config is missing |
| `References.RepeatsDoNotMatter` | controllers/nf/smf/reconciler.go:56-68 | inserting a repeat of a listed name anywhere behind it changes no first occurrence |
| `Repeats.RepeatsChangeNothing` | controllers/nf/smf/resources.go:170-212 | two SMFs whose reference lists have the same first occurrences, and nothing else apart, are left with the same objects by undisturbed passes, the ConfigMap's data included, up to versions and times, and the passes end alike |
| `Repeats.RepeatedOnceChangesNothing` | controllers/nf/smf/reconciler.go:56-68 | in particular, inserting one repeat anywhere behind the original leaves the same objects |

## Left out

- Concurrent passes: passes run one after the other, as controller-runtime runs them by default; what others do during a pass is any sequence of `EnvStep`s before each call.
- Other writers are taken not to create Deployments, not to write a status, and not to edit the annotations of pod templates.
- Deleting objects and changing attachment definitions or Configs does not advance the version counter by itself; `WriteElsewhere` advances it at any time.
- `Isolation.NonInterference`: assumes that the version annotation does not start out naming a version the server has yet to hand out.
- `Isolation.PassesCommute`: restricted to passes whose outside steps concern their own name, since a clock step or a removed attachment definition between two passes does matter for their order; `Isolation.PassesCommuteExactly` says how much.
- `Quiescence.QuietPassRefines`: stated for a pass that nobody disturbs, since with other writers at work the ConfigMap can move on after it was read.
- `StatusHistory.ObservedNeverAhead`: a Deployment that is deleted and recreated starts again at generation 1, so the claim excludes deletions.
- Caches, leader election, manager start-up, watches, work-queue timing and retries of controller-runtime.
- The rest of the objects: labels, ports, security context, volumes, replica counts; templates keep their interpolations and loops, not their constant text, and the resource sizes keep their threshold only.
- `net.ParseCIDR`, the decoding of Configs and `resource.MustParse` are results carried by the data (`ip`, `decoded`, capacities as integers).
- Service contents, and the UE routing template, which interpolates nothing that can fail.
- The provider strings, images and condition types are datatypes with a case for any other text; condition types of both kinds of object share one datatype because the source compares their strings.
- Nil `IPv4`, `Capacity` and reference-name pointers are taken not to occur; a nil n6 gateway and a nil annotation map are modelled as panics.
- `%q` and JSON: characters from 0x80 on are taken as printable, JSON numbers, literals and surrogate escapes are not parsed (the printer emits none of them); the key matching of the JSON decoder folds ASCII letters only.
- `ctrl.SetControllerReference` always succeeds.
- The generation is a natural number, clamped as in the source; the upper bound of 64 bits is not modelled.
- The three copies of `syncStatus`, `createNfDeploymentStatus` and of the creation branch, equal up to log texts and the subject of messages, are shared (`Reconcilers.SyncStatusOf`, `Status.CreateNfDeploymentStatus`, `Reconcilers.CreateOnceAttached`), and so are the two copies of `getNetworkInstances`.
- Aliasing of Go slices (appending to the conditions of a cached object) is not modelled; logs are values.
