# fluentd-sidecar-injector in Dafny

A model of the sidecar injector, its controller and its webhook, with proofs about whole runs.
`dafny verify dfyconfig.toml` checks everything.

## What is modelled

**The cluster and the reconciler** (`Cluster`, `Reconciler`). Every object key has a register: the history of what the
API server stored under it, and the position the informer cache has reached. `syncHandler` is a machine that takes one API
step at a time. A run interleaves steps of any number of syncs with outside writes and deletions and with cache moves to
any version, also backwards. A call may succeed, be rejected, or take effect while its reply is lost. Create needs a free
name, Update needs the version that was read and stores nothing when it changes nothing.

- `Safety`: no clobbering, conservation of children, success means ownership; of the objects that exist a sync rewrites
  its injector's status, and by an apply its Issuer or Certificate, nothing else. `ApplyRace`: what such an apply can hit.
- `CaBundle`: what a self-signed webhook trusts.
- `NonInterference`: one injector's view of a run is the run with all others cut out.
- `Provenance`: every stored version is built from an injector version in the history; with the webhook half of the
  model, the settings of a live Deployment are traced from the custom resource into the sidecars. `Blueprints`: what every stored object
  is, by its own names and fields. `Reports`: every status tells of a Deployment and a Service that were there.
- `Verdicts`: what a failing call and a missing setting mean, and how an undisturbed sync ends.
- `Convergence` and `Trap`: exactly when a quiet sync succeeds, why repeating it changes nothing, and the state from which
  no sync succeeds. A sync that fails after it created the Deployment leads into that state: the next one creates the
  Deployment again, without looking, and is refused for good.
- `Ownership`: the surroundings the convergence theorem asks for are reached by themselves after any run in which
  outsiders, whatever they report, fill in, change or delete, keep the owner of the children.

**The program around it** (`Handler`, `WorkQueue`, `Worker`, `Events`, `Manifests`, `DeepCopy`). `Handler` is
`syncHandler` written as the program is, call by call, with others acting before each call; each execution is shown to be a
run of the machine, so the theorems about runs hold of it. The workers run it against the queue. Scripts stand for what
others do; every theorem holds for every script. `System` puts workers, queue and cluster together: one holder per key
means one sync per injector. `Turns` shows that its workers run the program of `Worker`: they can always go on with it, make
no other moves, and log turns of that program.

**The webhook** (`Settings`, `Decimal`, `Pods`, `PodLaws`, `PodHeap`, `Mutator`, `Admission`). `Documented`
and `InjectedPods` say what comes of it in the documentation's names: annotations, variables, fields, defaults, paths. The
custom resource is compiled into an env list, read back through prefixed lookups, overridden by annotations, and
compiled into a sidecar. The mutator works on slices with backing arrays; its two loops refine one specification. `SliceAliasing` drops every assumption
on the arrays and says exactly which containers still get what they should.

**The informer factory** (`InformerFactory`). Locked sections as events that interleave freely, and the methods with
their loops.

## Where code and documentation differ

The model follows the code.

- README.md:236 gives the prefix of tags the default "" and validate.go:116 uses `app`.
- README.md:240-243 documents the resource annotations for both collectors; validate.go:281-303 honours them for fluentd only.
- CPU_RESOURCE and MEM_RESOURCE of README.md:299-301 are CPU_REQUEST and MEM_REQUEST in the code.
- A short form of the convergence condition, a recorded name or no handler, holds for the names the controller writes
  (`CanSucceedWithOwnNames`) and can fail for others (`ForeignNameFails`); `ShortConditionExact` says when.

## Model

| member | source | states |
|---|---|---|
| `Settings.BuildDeploymentEnv` | pkg/controller/sidecarinjector/generator.go:33-126 | The conditional appends, run over any custom resource, produce exactly the compacted table of rows: right names, right order, a row present exactly when its field is non-empty or non-zero |
| `Settings.DeploymentEnvDistinct` | pkg/controller/sidecarinjector/generator.go:33-126 | No variable name occurs twice in the env list, whatever the custom resource |
| `Settings.WriterOf` | pkg/webhook/sidecarinjector/validate.go:110-130 | The key the reader builds from prefix and tag is the literal name the writer used, and that variable carries the same collector's same setting |
| `Settings.PrefixedLookup` | pkg/webhook/sidecarinjector/validate.go:252-257 | Looking up a prefixed key in the Deployment's environment gives exactly the custom resource's field, or nothing when it is empty or zero |
| `Settings.BareLookup` | pkg/webhook/sidecarinjector/validate.go:562-567 | The unprefixed fallback of the reader never fires on the environment the controller writes |
| `Settings.SettingsFaithful` | pkg/webhook/sidecarinjector/validate.go:252-262 | End to end for every spec, annotation map, collector and setting: annotation if present (even empty), else the spec field, else the default |
| `Settings.CollectorFaithful` | pkg/webhook/sidecarinjector/validate.go:232-249 | The same for the collector, with an empty one resolving to fluentd and any other name to the error |
| `Documented.DeploymentEnvSays` | pkg/controller/sidecarinjector/generator.go:33-126 | The env list in the custom resource's own fields and the variables' own names: COLLECTOR always, a variable for every field that is set, a port as the numeral that reads back as it, each at most once, in this order, and nothing else |
| `Documented.SidecarIsConfigured` | pkg/webhook/sidecarinjector/validate.go:252-560 | From the custom resource into the sidecar, by literal annotation, variable, field and default: image, host, port, log dir, tag prefix, custom env and for fluentd the time and log formats; the timeouts, refresh interval and rotate wait; the nine facts about the pod; each at most once, in this order, and nothing else |
| `Documented.ReaderPrecedence` | pkg/webhook/sidecarinjector/validate.go:252-262 | In any environment that has no name twice, whoever wrote it: annotation, then the variable with the collector's prefix, then the one without, which serves both collectors, then the default |
| `Decimal.AtoiOfPrint` | pkg/webhook/sidecarinjector/validate.go:311-314 | Reading back a printed integer gives it, clamped to 64 bits |
| `Decimal.PrintInjective` | pkg/controller/sidecarinjector/generator.go:52-57 | Two ports with the same text are the same port, so nothing is lost in the env list |
| `Decimal.ExposedPortOfPrint` | pkg/webhook/sidecarinjector/validate.go:595-598 | expose-port is exact on int32, and -1 or 0 beyond the 64-bit range, where the parse error is dropped and the value truncated |
| `Decimal.ExposedPortOfText` | pkg/webhook/sidecarinjector/validate.go:311-314 | Text that is no optionally signed run of digits exposes port 0; a plus sign does not matter |
| `Decimal.DecimalPlaces` | pkg/controller/sidecarinjector/generator.go:52-57 | The text is positional decimal notation |
| `Decimal.PrintIsCanonical` | pkg/controller/sidecarinjector/generator.go:52-57 | It has no plus sign and no leading zero |
| `Pods.SidecarEnvDistinct` | pkg/webhook/sidecarinjector/validate.go:316-544 | The sidecar never gets two variables of one name |
| `Pods.SidecarFaithful` | pkg/webhook/sidecarinjector/validate.go:252-560 | In the pod that results from an injection, the sidecar's image and variables hold the documented value of every setting |
| `InjectedPods.CollectorByName` | pkg/webhook/sidecarinjector/validate.go:232-249 | The collector annotation, else the custom resource's collector: fluentd or empty is fluentd, fluent-bit is fluent-bit, everything else is unknown |
| `InjectedPods.InjectionRefused` | pkg/webhook/sidecarinjector/validate.go:350-430 | An injection is refused for the first reason that applies, no host, no log dir, no such config volume, and otherwise it succeeds; an empty annotation hides the field, and the log volume counts as a volume |
| `InjectedPods.InjectionAddsToThePod` | pkg/webhook/sidecarinjector/validate.go:264-560 | An injection adds one empty-dir volume, its mount at the end of every container's mounts, and one container; nothing else of the pod changes |
| `InjectedPods.SidecarIsMounted` | pkg/webhook/sidecarinjector/validate.go:271-430 | The sidecar mounts the log volume at the log directory and the volume the annotation names at /fluentd/etc or /fluent-bit/etc; its port, requests and limits by annotation and default, for fluent-bit without the resource annotations |
| `PodLaws.WellFormedIffFresh` | pkg/webhook/sidecarinjector/validate.go:264-555 | A successful injection keeps a well-formed pod well-formed if and only if the two injected names are new, no container mounts the log directory, and the log directory is not the config path when a config volume is mounted |
| `PodLaws.ChainedAccepted` | pkg/webhook/sidecarinjector/validate.go:415-430 | If the first injection is accepted, so is every later one on the growing pod |
| `PodLaws.ChainedInjection` | pkg/webhook/sidecarinjector/validate.go:252-560 | k injections add up to a closed form: k log volumes, k mounts per original container, the j-th sidecar mounted once more by each later injection |
| `PodLaws.ChainedCounts` | pkg/webhook/sidecarinjector/validate.go:562-797 | The counts of that pod: k more volumes and containers, k more mounts per original container, 1 + c + (k - j) mounts on the j-th sidecar |
| `PodLaws.SecondInjectionNeverWellFormed` | pkg/webhook/sidecarinjector/validate.go:264-269 | Injection is not idempotent: from the second on the pod is never well-formed |
| `PodHeap.MountAllRebuilding` | pkg/webhook/sidecarinjector/validate.go:546-555 | The loop that rebuilds the slice: the result shows every container with the log mount appended, in order, then the sidecar; the old slice is untouched; needs mount slices that share no spare capacity |
| `PodHeap.MountAllInPlace` | pkg/webhook/sidecarinjector/validate.go:787-792 | The loop that works in place meets the same specification |
| `SliceAliasing.SharedArrayLosesMount` | pkg/webhook/sidecarinjector/validate.go:788-791 | Two slices of any length on one array: appending to the shorter one overwrites the element of the longer one at that place, and no other |
| `SliceAliasing.AppendToAll` | pkg/webhook/sidecarinjector/validate.go:546-552 | The mount appends of both loops on slices that share arrays in any way: a container ends with its old mounts and the new one if and only if no shorter slice on its array is appended to earlier, or while it still lives there, at a place that holds something else |
| `SliceAliasing.SeparateIsUnharmed` | pkg/webhook/sidecarinjector/validate.go:788-791 | That condition holds of slices that cannot see each other's appends, and of slices of one length on one array |
| `Mutator.FluentDTarget` | pkg/webhook/sidecarinjector/validate.go:316-404 | Timeouts, host, port, format, custom env and log dir: the first refusal that applies, else the first eight rows of the sidecar's env |
| `Mutator.FluentDParsing` | pkg/webhook/sidecarinjector/validate.go:432-544 | The remaining appends complete the env list to exactly the table |
| `Mutator.FluentBitTarget` | pkg/webhook/sidecarinjector/validate.go:600-667 | The same for fluent-bit, with its six rows |
| `Mutator.FluentBitParsing` | pkg/webhook/sidecarinjector/validate.go:695-785 | The remaining appends for fluent-bit |
| `Mutator.FindVolume` | pkg/webhook/sidecarinjector/validate.go:680-688 | The search finds the config volume if and only if the pod, with the log volume, has it |
| `Mutator.SidecarVolumeMounts` | pkg/webhook/sidecarinjector/validate.go:406-430 | The sidecar's mounts, or the error exactly when the config volume does not exist |
| `Mutator.InjectFluentD` | pkg/webhook/sidecarinjector/validate.go:252-560 | On the pod in memory: the injected pod of the specification, or the specification's error with only the log volume appended |
| `Mutator.InjectFluentBit` | pkg/webhook/sidecarinjector/validate.go:562-797 | The same for fluent-bit |
| `Admission.SidecarInjectMutator` | pkg/webhook/sidecarinjector/validate.go:224-250 | Skipped, refused with its message, or the pod in memory is the injected one, by annotation and collector |
| `Admission.Validate` | pkg/webhook/sidecarinjector/validate.go:132-167 | Every path of the handler gives the response of the decision function Review |
| `Admission.DecisionWithoutPod` | pkg/webhook/sidecarinjector/validate.go:132-148 | What is no Pod is turned away by kind, what is no CREATE is let through, what cannot be read is turned away |
| `Admission.DecisionWithoutCollector` | pkg/webhook/sidecarinjector/validate.go:224-249 | A pod without the injection annotation "enabled" is let through unchanged; one that asks for an unknown collector is turned away, and told which |
| `Admission.DecisionOnPod` | pkg/webhook/sidecarinjector/validate.go:150-167 | A pod that asks for injection gets the patch to the injected pod, or the message of the first reason against it |
| `Admission.Unpatchable` | pkg/webhook/sidecarinjector/validate.go:161-165 | When no patch can be made, exactly the pods that would have had one are turned away |
| `Admission.PatchIffInjectable` | pkg/webhook/sidecarinjector/validate.go:132-215 | A patch is returned if and only if the request is a CREATE of a Pod whose injection annotation is "enabled", the collector is known, host and log dir are non-empty and a config volume exists or is the log volume; it leads from the pod to the injected pod |
| `Admission.DeniedIffEnabledButNotInjectable` | pkg/webhook/sidecarinjector/validate.go:150-159 | A readable pod creation is denied exactly when it asked for injection and cannot have it |
| `Admission.ResponseEchoes` | pkg/webhook/sidecarinjector/validate.go:169-181 | Every response carries the UID, type and version of its request, and a patch type exactly when it carries a patch |
| `Admission.NothingTravelsBack` | pkg/webhook/sidecarinjector/validate.go:150-158 | Without a patch the response is the one any pod with the same annotations and the same answer about the config volume would get, whatever its volumes and containers |
| `Admission.PartialAppendInvisible` | pkg/webhook/sidecarinjector/validate.go:264-269 | So the volume appended before a refusal is in no response: the pod with it would be answered in the same way |
| `Admission.ReviewIsSendable` | pkg/webhook/sidecarinjector/validate.go:62-96 | A review can be sent exactly in versions v1 and v1beta1, under the version it came in, as an AdmissionReview with every field of the response |
| `Cluster.NamesDisjoint` | pkg/controller/sidecarinjector/controller.go:251-258 | No key of any kind serves two injectors, whatever their names |
| `Cluster.ControlledByFirst` | pkg/controller/sidecarinjector/controller.go:290-294 | An object is controlled by a UID if and only if the first owner reference that claims control has it |
| `Safety.ChildBalance` | pkg/controller/sidecarinjector/controller.go:417-452 | Conservation over any run: present before + made by syncs + made by others = present after + removed by others, per child |
| `Safety.NoClobber` | pkg/controller/sidecarinjector/controller.go:228-359 | Under stale listers, failing calls, lost replies and any interleaving: a child no outsider touches is stored at most once, and once there its history never changes |
| `Safety.SuccessMeansOwnership` | pkg/controller/sidecarinjector/controller.go:255-351 | A sync that ends in success has, for its certificate mode, seen every child in the store with a controller reference to exactly its UID, and its status update was stored |
| `Safety.RecreatedNeverAdopts` | pkg/controller/sidecarinjector/controller.go:290-349 | While a typed child made for another UID stays in place, be it Secret, webhook, Service or the Deployment the sync settles on, no sync for the new UID succeeds, in any run from a reachable world, whatever others report or change on the child short of removing it or giving it to that UID |
| `NonInterference.RecreatedNeverAdoptsHandler` | pkg/controller/sidecarinjector/controller.go:316-334 | With no foreign name in any status the same holds of the handler's name, under the same reports and changes |
| `ApplyRace.ApplyClobbersOnlyInterleaved` | pkg/controller/sidecarinjector/controller.go:498-503 | In every reachable world an apply that meets an object meets one that somebody else stored after the sync's own Get had found nothing |
| `ApplyRace.ApplyOverwrites` | pkg/controller/sidecarinjector/controller.go:498-503 | That happens: from every initial cluster with the injector and without its Issuer there is a run in which a sync overwrites an Issuer somebody else has just made |
| `Safety.NoClobberManifests` | pkg/controller/sidecarinjector/controller.go:454-510 | No clobbering for Issuer and Certificate over any run in which nobody else stores them and the injector has one sync under way at a time: stored at most once, then unchanged |
| `Safety.ManifestBalance` | pkg/controller/sidecarinjector/controller.go:454-510 | Conservation for Issuer and Certificate, under reports, updates and deletions by others: present before + stored by syncs + made by others = present after + removed by others, over any run with one sync of the injector at a time in which nobody makes the object between a sync's Get and its Apply |
| `System.SystemRuns` | pkg/controller/sidecarinjector/controller.go:195-226 | Workers, queue and cluster together: every interleaving of the workers' moves with the queue and the rest of the world is, for the cluster, a run of the state machine in which an injector has one sync under way at a time |
| `System.ManifestsSafe` | pkg/controller/sidecarinjector/controller.go:454-510 | So in every execution from a fresh start an Issuer or Certificate nobody else touches is stored at most once and then unchanged |
| `System.ManifestsBalanced` | pkg/controller/sidecarinjector/controller.go:454-510 | And the conservation law holds in every execution from a fresh start in which others do not make the object between a sync's Get and its Apply |
| `Turns.ProgramGoesOn` | pkg/controller/sidecarinjector/controller.go:195-226 | In every reachable state, whatever the others have done, the next operation of processNextWorkItem or the next call of its syncHandler is possible; only Get waits |
| `Turns.NothingButTheProgram` | pkg/controller/sidecarinjector/controller.go:195-226 | And a worker can make no other move |
| `Turns.SystemTurns` | pkg/controller/sidecarinjector/controller.go:190-226 | In every execution the log of each worker is a sequence of the turns of `Worker.ProcessNextWorkItem` and the beginning of one more |
| `Turns.OneTurn` | pkg/controller/sidecarinjector/controller.go:195-226 | One undisturbed turn is a sequence of possible moves of one worker: its log grows by exactly that turn, and the cluster sees nothing for a malformed item, otherwise one sync begun and run to its end, whose verdict is the one logged |
| `Safety.OnlyStatusChanges` | pkg/controller/sidecarinjector/controller.go:228-372 | In every reachable world and for every key: a sync step that touches an existing object rewrites the status of its own injector and nothing else of it, or is an apply of its own Issuer or Certificate |
| `CaBundle.CaAgreement` | pkg/controller/sidecarinjector/controller.go:280-309 | In every run each webhook a sync stored carries one CA bundle throughout: its own Secret's certificate, and the empty one when it stored no Secret |
| `CaBundle.LiveCaAgreement` | pkg/controller/sidecarinjector/controller.go:439-445 | While Secret and webhook of one sync are both in place, every CABundle equals tls.crt |
| `NonInterference.StatusNamesInvariant` | pkg/controller/sidecarinjector/controller.go:316-325 | A status name is empty or the injector's own handler, in every run in which outsiders write no other |
| `NonInterference.TargetBelongs` | pkg/controller/sidecarinjector/controller.go:251-258 | Under that invariant every step of a sync touches only its own injector's keys |
| `NonInterference.InjectorsDoNotInterfere` | pkg/controller/sidecarinjector/controller.go:228-359 | For every interleaving: one injector's objects, caches and syncs end up as in the run from which everything else is cut out, and that run is possible |
| `Provenance.EveryWriteIsBuilt` | pkg/controller/sidecarinjector/generator.go:32-246 | In every run each version a sync stored sits under a key of its own injector, has that key's kind, and is what the builders make of an injector version that is in the history |
| `Blueprints.EveryWriteLooks` | pkg/controller/sidecarinjector/generator.go:32-399 | In every run each version a sync stored, by kind and in full: key, owner reference, Secret, Issuer, Certificate and DNS names, webhook host, path and CA source, image, environment, port; as one version of that injector asks for it |
| `Blueprints.SecretIsOnePair` | pkg/controller/sidecarinjector/generator.go:248-275 | Key and certificate of a Secret that a sync stored are one pair, generated at that step |
| `Provenance.DeploymentConfiguresSidecar` | pkg/controller/sidecarinjector/generator.go:33-126 | End to end over whole runs: a Deployment a sync made is the handler of some injector, and pods injected under its environment see the settings of one version of that injector's custom resource, annotation by annotation and field by field as `SidecarIsConfigured` has them |
| `Provenance.ChildrenFit` | pkg/controller/sidecarinjector/generator.go:354-399 | Deployment and Certificate name the same Secret, the webhook calls the injector's Service under the Certificate's host name, and all are controlled by the injector |
| `Convergence.FinishIsRun` | pkg/controller/sidecarinjector/controller.go:228-359 | A sync run to its end is a run of the cluster of at most 14 actions |
| `Convergence.ExactConvergence` | pkg/controller/sidecarinjector/controller.go:228-359 | With current caches, no fault, both settings and no foreign object in the way, a sync succeeds if and only if a recorded Deployment exists or the handler's name is free; then every child is in place, the old ones untouched and the status accurate, and otherwise no Deployment, Service or injector is written |
| `Reports.StatusTellsTruth` | pkg/controller/sidecarinjector/controller.go:361-372 | In every run each status a sync wrote, lost replies included, names a Deployment that was in the store with just that many available replicas, and its readiness is that of a Service that was there, both under the injector's UID |
| `Reports.StatusReportsLive` | pkg/controller/sidecarinjector/controller.go:361-372 | After an undisturbed success podCount is the available replicas of the live Deployment it names, and serviceReady says whether the live Service has a port and a cluster IP |
| `Verdicts.VerdictTable` | pkg/controller/sidecarinjector/controller.go:228-359 | How an undisturbed sync ends, whatever the settings: gone without an injector, failed without POD_NAMESPACE, both with nothing changed; failed without an image, with certificates and webhook in place; otherwise as `ExactConvergence` says |
| `Verdicts.OnlyStartEndsGone` | pkg/controller/sidecarinjector/controller.go:235-244 | A sync ends as gone exactly when the lister, asked without a fault, does not show the injector |
| `Verdicts.GoneMeansAbsent` | pkg/controller/sidecarinjector/controller.go:235-244 | In every run such a sync has stored nothing, and the injector was once absent |
| `Verdicts.NamespaceIsRequired` | pkg/controller/sidecarinjector/controller.go:246-249 | Without POD_NAMESPACE no sync of any run stores anything, and every one ends gone or failed |
| `Verdicts.ImageIsRequired` | pkg/controller/sidecarinjector/controller.go:311-315 | Without WEBHOOK_CONTAINER_IMAGE no sync of any run stores a Deployment, a Service or a status, and none succeeds |
| `Verdicts.NoFaultUnlessFailed` | pkg/controller/sidecarinjector/controller.go:235-358 | In every run a sync that has not failed has had no call that failed |
| `Convergence.CanSucceedWithOwnNames` | pkg/controller/sidecarinjector/controller.go:317-325 | With the names the controller writes the condition is: a non-empty status name, or no handler |
| `Convergence.ForeignNameFails` | pkg/controller/sidecarinjector/controller.go:321-324 | With a recorded name whose Deployment is gone and a handler in place, the sync fails, although a name is recorded; the name is then not the handler's |
| `Convergence.ShortConditionExact` | pkg/controller/sidecarinjector/controller.go:317-325 | The short condition decides the sync's verdict if and only if that is not the case |
| `Convergence.ConvergedMissesNothing` | pkg/controller/sidecarinjector/controller.go:228-359 | The number of missing children is zero after success |
| `Convergence.SteadySyncChangesNothing` | pkg/controller/sidecarinjector/controller.go:336-355 | In a steady cluster a sync stores nothing, from wherever it stands, and succeeds |
| `Convergence.SecondSyncChangesNothing` | pkg/controller/sidecarinjector/controller.go:228-359 | Once caches have caught up with a success, another sync changes no register and succeeds |
| `Convergence.LastStages` | pkg/controller/sidecarinjector/controller.go:336-355 | A sync that has its Deployment in hand completes, even when the status was empty, which is why the trap excludes such syncs |
| `Ownership.ChildrenAreOurs` | pkg/controller/sidecarinjector/controller.go:255-351 | Over any run, under any staleness and faults: if whatever others stored under a child key names the UID as its controller, then the key is, whenever occupied, occupied by a child controlled by that UID; others may update, report, delete and make it anew |
| `Ownership.ConvergesAfterAnyRun` | pkg/controller/sidecarinjector/controller.go:228-359 | Whatever has happened before: if outsiders kept the owner of the children a sync checks and wrote no foreign status name, then once caches have caught up an undisturbed sync succeeds if and only if a name is recorded or there is no handler, and converges then; when it cannot and no sync is past its Deployment, the injector is trapped |
| `Trap.TrapIsClosed` | pkg/controller/sidecarinjector/controller.go:316-329 | Handler present, status name empty: over any run no sync succeeds, creates the Service or changes the injector, until somebody deletes the handler or writes the status |
| `Trap.FailureAfterDeploymentTraps` | pkg/controller/sidecarinjector/controller.go:336-355 | A first sync that creates the Deployment and then fails, at the Service or at the update, leaves exactly that state (unless the update took effect and only its reply was lost) |
| `Trap.TrappedSyncFails` | pkg/controller/sidecarinjector/controller.go:317-329 | In the trap even an undisturbed sync fails and writes no Deployment, Service or injector |
| `Trap.OutOfTheTrap` | pkg/controller/sidecarinjector/controller.go:317-325 | Once the handler is deleted or the status records it, and caches have caught up, an undisturbed sync succeeds |
| `Trap.TrapIsTheComplement` | pkg/controller/sidecarinjector/controller.go:316-329 | With own names, a current cache and no sync past its Deployment, the injectors that cannot succeed are exactly the trapped ones |
| `Handler.BundleHooks` | pkg/controller/sidecarinjector/controller.go:441-443 | The in-place loop gives every webhook the certificate and keeps everything else |
| `Handler.BuildWebhook` | pkg/controller/sidecarinjector/controller.go:439-452 | The webhook built in either mode is the specified one |
| `Handler.Controller.EnsureManifest` | pkg/controller/sidecarinjector/controller.go:454-482 | Get, and Apply when absent: exactly the machine's steps for Issuer and Certificate |
| `Handler.Controller.EnsureSecret` | pkg/controller/sidecarinjector/controller.go:282-294 | Lister, create, ownership: the machine's steps, and serverCertificate is the machine's |
| `Handler.Controller.EnsureWebhook` | pkg/controller/sidecarinjector/controller.go:296-315 | The same for the webhook, then WEBHOOK_CONTAINER_IMAGE |
| `Handler.Controller.EnsureDeployment` | pkg/controller/sidecarinjector/controller.go:316-334 | The same for the Deployment, without a lookup when the status name is empty; the pod count in hand is its available replicas |
| `Handler.Controller.EnsureService` | pkg/controller/sidecarinjector/controller.go:336-349 | The same for the Service |
| `Handler.Controller.UpdateStatus` | pkg/controller/sidecarinjector/controller.go:351-372 | The update at the version read; when it returns nil the injector in the store is the one that was read with a status that names the Deployment, counts its available replicas, and says whether the Service has a port and a cluster IP |
| `Handler.Controller.SyncHandler` | pkg/controller/sidecarinjector/controller.go:228-359 | Every call, under any interference, is a run of the state machine in which one sync goes from begin to end; nil exactly for a malformed key, a missing injector and a success, and after a success the sync owns its children |
| `Keys.KeyRoundTrip` | pkg/controller/sidecarinjector/controller.go:374-382 | The key enqueued for an object splits back into its namespace and name |
| `Keys.TwoSlashesAreMalformed` | pkg/controller/sidecarinjector/controller.go:230-234 | A key with two slashes or more is malformed |
| `WorkQueue.SoundRun` | pkg/controller/sidecarinjector/controller.go:195-218 | Over any run with any number of workers: no item is queued twice, an item in process has one holder, Gets and Dones balance |
| `WorkQueue.GetsMatchDones` | pkg/controller/sidecarinjector/controller.go:195-203 | Each Get of an item is matched by one Done, except for its one present holder, and there are no more Gets than requests |
| `WorkQueue.ForgetExact` | pkg/controller/sidecarinjector/controller.go:207-218 | Over every run, of an item nobody is processing, Forgets equal nil-error syncs, or Gets when it is malformed |
| `WorkQueue.NoRetryWithoutEvent` | pkg/controller/sidecarinjector/controller.go:212-214 | An item neither queued nor delayed, such as one whose sync failed, is not taken again before an event requests it |
| `WorkQueue.NoLostEvent` | pkg/controller/sidecarinjector/controller.go:374-382 | A requested item is taken later or still on its way, until shutdown |
| `Worker.Worker.Treat` | pkg/controller/sidecarinjector/controller.go:202-218 | The verdict is syncHandler's, Forget follows a malformed item or a nil error only, Done always |
| `Worker.Worker.ProcessNextWorkItem` | pkg/controller/sidecarinjector/controller.go:195-226 | One turn adds exactly Get, sync, perhaps Forget, Done to the worker's log; false only when the queue is shut down and empty |
| `Worker.Worker.RunWorker` | pkg/controller/sidecarinjector/controller.go:190-193 | A worker's whole log is a sequence of such turns, and it ends |
| `Events.Handlers.HandleObject` | pkg/controller/sidecarinjector/controller.go:384-415 | Tombstones are recovered, and the owner's key is requested exactly when the controller reference is a SidecarInjector in the lister |
| `Events.Handlers.OnEvent` | pkg/controller/sidecarinjector/controller.go:124-162 | The registered handlers, kind by kind, request what the specification says and nothing else |
| `Events.EventsExact` | pkg/controller/sidecarinjector/controller.go:384-415 | A Deployment or Secret event requests n if and only if n is in the lister and the first controlling reference names it; equal-version updates request nothing |
| `Events.InjectorEventsExact` | pkg/controller/sidecarinjector/controller.go:123-130 | An injector's own event requests its key exactly when it is added or updated, resyncs included; its deletion requests nothing, nor does any event of a kind without handlers |
| `Events.UidIgnored` | pkg/controller/sidecarinjector/controller.go:401-413 | The owner is matched by name, not by UID, so a recreated injector is told of its predecessor's children |
| `Events.EventReachesWorker` | pkg/controller/sidecarinjector/controller.go:374-415 | From event to worker: the key is taken later or on its way, and splits back to the injector |
| `Manifests.DynamicClient.ApplyManifest` | pkg/controller/sidecarinjector/controller.go:484-510 | The loop computes the specified store and error |
| `Manifests.CompletedRun` | pkg/controller/sidecarinjector/controller.go:486-509 | Without an error every existing object is untouched and every absent one gets one version, from the first readable document for it |
| `Manifests.RerunWritesNothing` | pkg/controller/sidecarinjector/controller.go:498-503 | Repeating a completed run writes nothing, whatever its calls do |
| `Manifests.StopsAtFirstError` | pkg/controller/sidecarinjector/controller.go:493-507 | An error comes from one document, for which there is no client, or whose Get fails, or whose Apply does; those before are done, those after do not matter |
| `Manifests.FailureIsReturned` | pkg/controller/sidecarinjector/controller.go:493-507 | Conversely, a readable document that fails in one of these ways is never passed over |
| `Manifests.UndecodableEndsQuietly` | pkg/controller/sidecarinjector/controller.go:488-490 | What follows an undecodable document is dropped and no error says so |
| `Manifests.ManifestIsOneDocument` | pkg/controller/sidecarinjector/controller.go:454-482 | The machine's steps for an Issuer, and those for a Certificate, are this procedure on its one document |
| `DeepCopy.SidecarInjector.SpecDeepCopyInto` | pkg/apis/sidecarinjectorcontroller/v1alpha1/zz_generated.deepcopy.go:122-134 | Equal contents, nil kept nil, pointers to fresh memory |
| `DeepCopy.SidecarInjector.DeepCopyInto` | pkg/apis/sidecarinjectorcontroller/v1alpha1/zz_generated.deepcopy.go:61-68 | The copy equals the original and shares no FluentD, FluentBit or metadata memory with it; the original is unchanged |
| `DeepCopy.DeepCopyOf` | pkg/apis/sidecarinjectorcontroller/v1alpha1/zz_generated.deepcopy.go:71-78 | nil for nil, otherwise a fresh equal object |
| `DeepCopy.CopyItems` | pkg/apis/sidecarinjectorcontroller/v1alpha1/zz_generated.deepcopy.go:94-98 | The loop copies every item, into pairwise separate memory |
| `DeepCopy.SidecarInjectorList.DeepCopyInto` | pkg/apis/sidecarinjectorcontroller/v1alpha1/zz_generated.deepcopy.go:89-101 | A list keeps nil and empty apart and its items are all fresh, equal and separate |
| `DeepCopy.StatusUpdate` | pkg/controller/sidecarinjector/controller.go:361-372 | The object sent differs from the lister's only in the status and shares nothing with it; the lister's object is as before |
| `InformerFactory.SharedInformerFactory.InformerFor` | pkg/client/informers/externalversions/factory.go:224-246 | A registered type returns its informer; a new one is built once, of its type, with its custom or the default resync period and the transform, and registered |
| `InformerFactory.SharedInformerFactory.StartWithContext` | pkg/client/informers/externalversions/factory.go:147-163 | Nothing after the shutdown flag; otherwise every registered type is started, launched once in all, and runs if it had not been started, in whatever order the map yields them |
| `InformerFactory.SharedInformerFactory.Shutdown` | pkg/client/informers/externalversions/factory.go:165-173 | It returns only with the wait group at zero, and then nothing runs |
| `InformerFactory.SharedInformerFactory.WaitForCacheSyncWithContext` | pkg/client/informers/externalversions/factory.go:180-220 | The result's keys are the types started at the locked snapshot; an error if and only if some entry is false, and then the context was done; reported means synced |
| `InformerFactory.FactoryIsSound` | pkg/client/informers/externalversions/factory.go:147-173 | Under every interleaving: each type built at most once and launched at most once, started types registered, wait count = launched - finished |
| `InformerFactory.RegisteredForGood` | pkg/client/informers/externalversions/factory.go:224-246 | Over every run a type that was asked for has an informer for good, built once and as the options say |
| `InformerFactory.StartLaunchesAll` | pkg/client/informers/externalversions/factory.go:147-163 | Over every run a Start before the flag gives each registered type a goroutine if it had none, and in the end each has been launched exactly once |
| `InformerFactory.OnlyStartLaunches` | pkg/client/informers/externalversions/factory.go:155-162 | Nothing else launches one, and only its own end stops one |
| `InformerFactory.SameInformerForever` | pkg/client/informers/externalversions/factory.go:228-232 | A type keeps the informer it got first |
| `InformerFactory.NoLaunchAfterFlag` | pkg/client/informers/externalversions/factory.go:151-153 | After the flag nothing is launched and the wait count never rises |
| `InformerFactory.NothingRunsAfterShutdown` | pkg/client/informers/externalversions/factory.go:165-173 | Once Shutdown may return nothing runs, and nothing ever will, whoever registers or starts informers later |

## Left out

- TrapIsClosed: assumes that the cache does not fall back to versions of the injector from before the trap and that no sync is past the Deployment already; such a sync may still complete (`LastStages`), and a cache that shows an older, recorded status sends a sync past the lookup.
- NoClobberManifests: asks that nobody else touches the object, because its history is to stay as it is; `ManifestBalance` is the law under reports, updates and deletions by others.
- ManifestBalance: the Get and the Apply of an Issuer or Certificate are two steps and the code checks no owner, so an object made in between is overwritten (`ApplyOverwrites`); the law therefore asks that nobody makes it in between, and for one sync of an injector at a time, which `ChildBalance` does not need and `SystemRuns` derives from the work queue.
- StatusTellsTruth: assumes of the store at the start that objects of one kind are under keys of that kind, as the API server keeps them.
- SuccessMeansOwnership: Issuer and Certificate are only shown to have existed, because the code checks no owner on them.
- InjectorsDoNotInterfere: asks of outsiders that they write no foreign deployment name into a status; a foreign name makes a sync look at another injector's Deployment.
- ExactConvergence: cache and store are quiet during the sync; the general runs are in the safety theorems.
- MountAllRebuilding: mount slices start at the front of their arrays, as a decoder makes them, and share no spare capacity; without the second the appends go wrong exactly as `AppendToAll` says.
- SystemRuns: keys that are enqueued are bare names or malformed, because injectors have no namespace.
- ConvergesAfterAnyRun: the injector has kept its UID, and outsiders kept the owner of the children; an injector made anew, or a child with another owner, is refused for as long as that child stays (`RecreatedNeverAdopts`). With cert-manager nothing is asked of the Secret. Outsiders write no foreign name into a status (`ForeignNameFails` says why).
- OneTurn: undisturbed, that is without moves of others in between; with them the worker still makes the program's moves and no others (`ProgramGoesOn`, `NothingButTheProgram`), and the calls of `syncHandler` one by one are `Controller.SyncHandler`'s.
- WaitForCacheSyncWithContext: a script that ends stands for the end of the context; a wait that nobody ends is not a result.
- RunWorker: the script ends with the shutdown of the queue; longer lives are covered by the theorems about runs of the queue.
- ApplyManifest: nobody else acts between two documents; between the Get and the Apply of the reconciler's one-document manifests everybody may.
- Delivery of informer events: what the handlers do with an event is modelled, not which events a change of the store brings.
- HTTP serving, TLS, leader election, signals, flags, logging and recorded events.
- Key and certificate generation: an arbitrary pair, or an error.
- JSON and the patch library: a patch leads from one pod to another, or there is an error; the text of library errors is one constant.
- Resource amounts: the resource annotations end up in the Format field of a quantity and are kept as that text.
- The rate limiter's delays: an item waits for an arbitrary time. Its failure counts are not modelled.
- The YAML templates of manifest.go: Issuer and Certificate are values, and a manifest is a list of documents.
- Server-side apply: brings the whole object to the manifest; field managers are not modelled.
- Defaulting by the API server, except the cluster IP of a Service.
- Labels, probes, rules and other constant fields of the built objects.
- Routing: all webhook pods carry one label, so a Service also selects the pods of other injectors; nothing is claimed about that.
- Init containers and all other pod fields are carried along as one opaque part.
- owner.go, the generated clients and the listers' own code.
