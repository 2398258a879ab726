# Storage capability: a verified model

A Dafny model of the programs in this repository, with proofs of what they promise.

* **The reconcile controller** (`pkg/controller/controller.go`). Four informer caches lag behind the API
  server, event handlers turn changes into keys, and any number of workers drain a rate-limited queue, each
  sync being four separate cache reads and one Create, Update or Delete. `Reconcile.dfy` is the step
  relation, with failing calls, lost replies, conflicts, tombstones, resyncs, panics and kills as steps.
  `ReconcileBase.dfy` has what every step keeps, `ReconcileSafety.dfy` that no wakeup is lost,
  `ReconcileRuns.dfy` what follows for whole runs, `Drain.dfy` and `DrainRuns.dfy` that the protocol
  settles, `Losses.dfy` and `Endless.dfy` exactly when it does not. `Controller.dfy` is the code in its own form, an object with listers and a queue, and `Sync.dfy`
  shows that a worker's undisturbed item is a run of the protocol; `ControllerCode.WorkedIsRun` joins the two. `DeepCopy.dfy` has the copies that
  keep the caches unmodified.
* **The sidecar** (`pkg/sidecar/controller.go`, `pkg/handler/plugin.go`): `Plugin.dfy` folds the lists a CSI
  plugin advertises, `Sidecar.dfy` writes the result under failures and among other sidecars, and
  `EndToEnd.dfy` joins it to the controller: what a user reads is what the plugin said.
* **The webhook** (`pkg/webhook/controller.go`): `Webhook.dfy`.
* **The informer factory** (`pkg/generated/informers/externalversions/factory.go`): `InformerFactory.dfy`.

`Kube.dfy`, `Capability.dfy` and `WorkQueue.dfy` hold the environment's contracts, the API types and the two
builders. `dafny verify dfyconfig.toml` checks everything.

## What is assumed of the environment

Stated once, in `Kube.dfy` and `WorkQueue.dfy`: every write gets a fresh resource version, an Update is refused
unless it carries the stored one, and an Update that changes nothing announces nothing (Kubernetes API
Conventions, section "Concurrency Control and Consistency"); object names are not empty; a deletion removes
its object at once, which is to say that no deleted object carries finalizers; an informer applies the
events of its kind in order and updates its cache before it notifies; the queue's dirty and processing sets
work as in client-go.

## What the proofs show about the code

* When a run that loses no wakeup comes to rest, every stored capability is right (`ReconcileRuns.RestIsRight`),
  although reads may be torn and caches stale (`ReconcileSafety.StepKeeps`).
* It does come to rest, if capability events are delivered (`DrainRuns.DrainTerminates`). Without that a
  write that is refused because of a stale read can be retried forever (`Endless.UnfairDrainIsEndless`), and an
  ordinary run leads there (`Endless.LoopIsReached`).
* Concurrent workers are confluent: any two drains from one state end in the same specs, for keys without
  obligation from the moment all inputs have been delivered (`DrainRuns.DrainsAgree`).
* Two defects lose a wakeup. A tombstone enqueues nothing, because `handleScObject` takes the object out of it
  and then enqueues the tombstone; and an error of the capability's deletion is swallowed. They matter for
  tombstones of StorageClasses with a capability, of snapshot classes and capabilities of keys that are owed one,
  and for refused deletions of capabilities that exist, provided nothing else announces the key.
  `Losses.LossIsExact` says of every step exactly when a covered key is lost; `Losses.LossForeseen` tells
  it without looking at workers or at the capability afterwards, for keys that no other worker holds. `Losses.LossesHappen` has runs of
  the program from an empty server that rest with a wrong capability, for all four. The tombstone of a
  ProvisionerCapability loses nothing. Two resyncs, one restart, or any later event that names the key repair
  every loss (`ReconcileRuns.Repaired`, `DrainRuns.ConvergesAfterResyncs`).
* A deletion that succeeds panics, because the log line at `pkg/controller/controller.go:297` calls `Error` on
  a nil error. The comment at line 281 promises the deletion, which does happen; the process then starts again,
  and the proofs follow it through the restart. The only other panic is a nil `AllowVolumeExpansion` with
  everything else known (`Sync.PanicsExactly`). Left alone, a controller with every key covered can come to rest
  if and only if no StorageClass with a known provisioner has a nil `AllowVolumeExpansion`
  (`DrainRuns.RestsExactly`); two objects on an empty server are enough to keep it from resting
  (`Losses.NilSetupNeverRests`).
* The guard at `pkg/sidecar/controller.go:91` compares a struct with a pointer and never saves an Update; the
  Update is silent (`Sidecar.RepeatedTickIsSilent`).
* The generated binding name is ambiguous: of the pods of ("a", "b-in-c") and ("a-in-b", "c") the second is
  admitted and patched but never bound (`Webhook.CollidingAdmissions`). Among all strings, an account has a name
  of its own if and only if "-in-" occurs neither in "-" + namespace nor in account + "-" (`Webhook.OwnNameExactly`): a clean
  namespace alone does not protect it. Among the names that Kubernetes accepts, it has if and only if the name
  splits into a subdomain and a label in one place only (`Webhook.OwnValidNameExactly`), as that of
  ("x", "a-in--b") does (`Webhook.UncleanButOwn`). Among pods whose namespaces are all clean no two collide, and the
  promise made by a patch is kept for every run if and only if no two accounts of arriving pods collide
  (`Webhook.PromisesKeptExactly`).

## Model

| member | source | states |
|---|---|---|
| ControllerCode.Controller.SyncHandler | pkg/controller/controller.go:282-350 | One undisturbed sync changes the server and returns exactly as a worker of the protocol reading the same caches would, panics included; a key with two slashes does nothing and is no error; no cached object is modified. |
| ControllerCode.KeyOutcomeIs | pkg/controller/controller.go:283-287 | A key is synced by its name, whatever namespace it carries; one with two slashes changes nothing and is no error. |
| ControllerCode.Controller.SnapshotShows | pkg/controller/controller.go:71-104 | What the sync is stated to read are the four listers, object by object and field by field, the server and the queue. |
| ControllerCode.Controller.ProcessNextWorkItem | pkg/controller/controller.go:244-277 | For every key: the one at the head is fetched, synced, then forgotten if the sync returned nil and rate-limited if it returned an error, neither if it panicked, then given back; an empty, shut-down queue ends the worker. |
| ControllerCode.WorkedIsRun | pkg/controller/controller.go:244-277 | What processNextWorkItem leaves of caches, server and queue is what a run of one protocol worker's own steps leaves, or the server a new process starts from; for every key without a slash. |
| ControllerCode.ItemBooks | pkg/controller/controller.go:253-269 | The queue's books after an item: fetched and given back once, forgotten after nil, scheduled for a retry after an error, neither after a panic; caches unchanged. |
| ControllerCode.Controller.OnSccapEvent | pkg/controller/controller.go:108-114 | A tombstone leaves the queue as it is; every other notification of a capability adds its name once. |
| ControllerCode.Controller.OnPcapEvent | pkg/controller/controller.go:115-121 | Every notification of a ProvisionerCapability adds the keys of its StorageClasses, tombstones excepted. |
| ControllerCode.Controller.EnqueuePcap | pkg/controller/controller.go:167-184 | In whatever order the lister answers, the keys added are exactly the StorageClasses that name the provisioner; none for anything but an object. |
| ControllerCode.Controller.EnqueueSccap | pkg/controller/controller.go:157-165 | Adds an object's name; reports an error and adds nothing for anything else, tombstones included. |
| ControllerCode.Controller.HandleScObject | pkg/controller/controller.go:186-204 | Whether a tombstone decodes, is empty or the argument is something else: only an object adds its key, everything else is reported. |
| ControllerCode.Controller.OnScEvent | pkg/controller/controller.go:122-149 | An update between equal resource versions and a tombstone leave the queue as it is; every other notification adds the object's name once. |
| ControllerCode.NewSccap | pkg/controller/controller.go:365-391 | Nil exactly for nil inputs and panicking exactly on a nil AllowVolumeExpansion; otherwise a fresh object of the StorageClass's name, without metadata, whose spec describes the inputs. |
| ControllerCode.UpdateSccap | pkg/controller/controller.go:393-419 | Nil exactly for nil inputs or differing names; otherwise a fresh object that has the cached one's name, version, labels, annotations and finalizers, shares no map or slice with it and, unless it panicked, has a spec that describes the inputs; the cached object is not modified. |
| ControllerCode.SplitKey | pkg/controller/controller.go:283-287 | The name of a key with at most one slash; an error for any other. |
| Capability.PathIndependence | pkg/controller/controller.go:324-419 | Creating from nothing and updating any existing capability give the same spec, which describes the inputs flag by flag; an update keeps metadata and version; a build panics exactly on a nil AllowVolumeExpansion and is never nil. |
| Capability.DescribesOne | pkg/controller/controller.go:369-388 | The flag-by-flag description leaves one spec. |
| Capability.ScChangeReachesItsKeys | pkg/controller/controller.go:122-135 | A delivered StorageClass change that alters any key's view enqueues that key, tombstones excepted. |
| Capability.SnapChangeReachesItsKeys | pkg/controller/controller.go:136-149 | The same for VolumeSnapshotClasses. |
| Capability.PcapChangeReachesItsKeys | pkg/controller/controller.go:115-121 | The same for ProvisionerCapabilities and the keys found by the scan; after a tombstone of one, nothing is owed to the keys it changed. |
| Capability.CapChangeReachesItsKeys | pkg/controller/controller.go:108-114 | The same for StorageClassCapabilities. |
| Capability.PcapKeysExact | pkg/controller/controller.go:174-183 | The scan enqueues a key if and only if some change of that provisioner alone could alter the key's view. |
| Kube.UpdateReplacesWhatWasRead | pkg/controller/controller.go:343-349 | An Update that succeeds or takes effect replaced the very object that was read. |
| ReconcileBase.StepBase | pkg/controller/controller.go:206-350 | Every step keeps the base invariant: caches replay to the store, versions are genuine, the queue's books balance, no key is in two hands. |
| ReconcileBase.HandlersEnqueueExactly | pkg/controller/controller.go:108-204 | A handler's step makes dirty exactly the keys it is for: none for tombstones and, with the two filtering handlers, for updates between equal versions. |
| ReconcileBase.KeyConservation | pkg/controller/controller.go:239-277 | Over any run: keys accepted are fetched or waiting, keys fetched are given back or held by exactly one worker, keys given back were forgotten or rescheduled, never both. |
| ReconcileSafety.StepKeeps | pkg/controller/controller.go:108-350 | No step loses a key's wakeup, unless nothing else announces the key and the step is the tombstone of its StorageClass while a capability is left, of its snapshot class or capability while one is owed, or the refusal of its capability's deletion. |
| ReconcileSafety.WriteKeeps | pkg/controller/controller.go:289-350 | The write of a sync, torn and stale reads included, leaves the key agreeing, announced or retried. |
| ReconcileSafety.StaleCacheSafety | pkg/controller/controller.go:333-349 | A capability wrongly believed absent, or read in another version, is left as it is and the key retried; what is replaced is exactly what was read, and keeps its metadata. |
| ReconcileSafety.NoNilObject | pkg/controller/controller.go:337-345 | No worker sends a nil object; the only panic of a build is a nil AllowVolumeExpansion. |
| ReconcileSafety.RestartCovers | pkg/controller/controller.go:206-236 | The initial lists of a restarted process cover every key, whatever was lost before. |
| ReconcileRuns.NoLostWakeup | pkg/controller/controller.go:108-350 | In every reachable state each key not hit by a loss is pending, announced, attended to by a worker whose reads are all true, or agrees. |
| ReconcileRuns.AtRest | pkg/controller/controller.go:279-350 | At rest a key is covered if and only if the server's own objects agree. |
| ReconcileRuns.RestIsRight | pkg/controller/controller.go:79-350 | Any run without losses for the key that comes to rest leaves the right capability, or none where there should be none. |
| ReconcileRuns.RestIsUnique | pkg/controller/controller.go:228-230 | Any two lossless runs that rest on the same inputs for a key the controller is obliged to have the same spec for it, or both none. |
| ReconcileRuns.RepairsSound | pkg/controller/controller.go:108-121 | From any base state, through any losses: the two unfiltered resyncs, in any order and at any moments, one restart, or anything that announces the key restore what is known of it. |
| ReconcileRuns.Repaired | pkg/controller/controller.go:179-236 | Once repaired since the last loss a key is covered, and right at rest. |
| ReconcileRuns.SelfStabilises | pkg/controller/controller.go:108-121 | The two resyncs in a row cover every key from any base state, through everything that follows without loss, and it is right at rest. |
| Losses.LossIsExact | pkg/controller/controller.go:186-299 | For every step of every kind and every covered key: it is covered after the step if and only if the step is not Lossy for it, or a worker still attends to it, or a snapshot class made no difference. |
| Losses.LossForeseen | pkg/controller/controller.go:186-299 | For a key no other worker holds: covered after the step if and only if it is announced then or no defect strikes, a snapshot class counting only where its flags are shown. |
| Losses.SnapTombstoneExactly | pkg/controller/controller.go:186-204 | The unannounced tombstone of a snapshot class leaves a key wrong if and only if the capability shows its snapshot flags. |
| Losses.DropScStrands | pkg/controller/controller.go:186-204 | From any rest: the tombstone of a StorageClass that has a capability leads to a rest with that capability still there. |
| Losses.DropSnapStrands | pkg/controller/controller.go:186-204 | From any rest: the tombstone of a snapshot class whose flags are shown leads to a rest that still shows them. |
| Losses.DropCapStrands | pkg/controller/controller.go:108-165 | From any rest: the tombstone of a capability that is owed leads to a rest without it. |
| Losses.RefusalStrands | pkg/controller/controller.go:292-299 | From any rest: a StorageClass's deletion, delivered and synced while the server refuses, leads to a rest with the capability still there. |
| Losses.LossesHappen | pkg/controller/controller.go:186-299 | For any number of workers and any name there are runs from an empty server to a right rest, and on to a wrong one, for each of the four losses. |
| ReconcileRuns.NilExpansionNeverRests | pkg/controller/controller.go:382-410 | No lossless run from a covered key ends at rest while its StorageClass has a nil AllowVolumeExpansion and a known provisioner. |
| DrainRuns.RestsExactly | pkg/controller/controller.go:239-410 | Left alone with every key covered, the controller can come to rest if and only if every StorageClass with a known provisioner sets AllowVolumeExpansion. |
| Losses.NilSetupNeverRests | pkg/controller/controller.go:382-410 | From an empty server a provisioner and one StorageClass without AllowVolumeExpansion keep it from resting, however it works. |
| Drain.DrainRank | pkg/controller/controller.go:108-350 | Every step of an undisturbed controller lowers the rank, except a write refused because of an undelivered event; no step raises the leading components. |
| DrainRuns.DrainTerminates | pkg/controller/controller.go:239-350 | No infinite run of an undisturbed controller is fair. |
| DrainRuns.NotStuck | pkg/controller/controller.go:239-277 | Short of rest some step is possible. |
| DrainRuns.Converges | pkg/controller/controller.go:239-350 | From any state with every key covered, some drain leads to a rest at which every key agrees. |
| DrainRuns.ConvergesAfterRestart | pkg/controller/controller.go:206-236 | From any base state at all, a restart and a drain do. |
| DrainRuns.ConvergesAfterResyncs | pkg/controller/controller.go:108-121 | From any base state at all, one round of the two unfiltered resyncs and a drain do. |
| DrainRuns.DrainsAgree | pkg/controller/controller.go:228-230 | From any base state, any two lossless drains to rest end in the same spec for every covered key, however the workers interleave; keys without obligation included once every input is delivered and no worker holds an outdated one. |
| Endless.UnfairDrainIsEndless | pkg/controller/controller.go:333-339 | With the event undelivered, a refused Create is retried forever: the fairness condition is needed. |
| Endless.LoopIsReached | pkg/controller/controller.go:333-339 | From an empty server, a run in which the controller repeats its own Create leads into that loop. |
| Sync.SyncIsRun | pkg/controller/controller.go:282-350 | An undisturbed sync is a run of the protocol's worker steps. |
| Sync.ItemIsRun | pkg/controller/controller.go:244-277 | So is an undisturbed processNextWorkItem, ending in a restart if the sync panics. |
| Sync.PanicsExactly | pkg/controller/controller.go:289-345 | A sync panics if and only if it deletes a capability successfully, or everything to build from is known and AllowVolumeExpansion is nil. |
| Sync.SyncMeets | pkg/controller/controller.go:279-350 | With current caches one sync meets the key's target. |
| Sync.SyncLocal | pkg/controller/controller.go:282-350 | A sync touches no key but its own. |
| Sync.SyncAllMeets | pkg/controller/controller.go:282-350 | Any sequence of syncs leaves each listed key as one sync would, so syncs are idempotent, and every other key alone. |
| Sync.Confluence | pkg/controller/controller.go:228-230 | Sequences over the same keys, in any order and with repetitions, end in the same specs. |
| DeepCopy.StorageClassCapability.DeepCopyInto | pkg/apis/storagecapability/v1alpha1/zz_generated.deepcopy.go:172-178 | Field by field the target becomes equal to the source, labels, annotations and finalizers each in a fresh map or slice, nil where the source's is. |
| DeepCopy.StorageClassCapability.Copy | pkg/apis/storagecapability/v1alpha1/zz_generated.deepcopy.go:181-188 | Nil for nil; otherwise a fresh object, equal field by field, that shares no map or slice with its source. |
| DeepCopy.CopyItems | pkg/apis/storagecapability/v1alpha1/zz_generated.deepcopy.go:203-209 | The copy loop gives fresh, elementwise equal and pairwise disjoint results. |
| DeepCopy.SameFieldByField | pkg/apis/storagecapability/v1alpha1/zz_generated.deepcopy.go:172-209 | The equality and the parts that the copies are stated with, in terms of the fields. |
| DeepCopy.StorageClassCapabilityList.DeepCopyInto | pkg/apis/storagecapability/v1alpha1/zz_generated.deepcopy.go:199-211 | The list copy has the same metadata and shares no slice, element or part with its source. |
| Plugin.GetIdentityCapability | pkg/handler/plugin.go:64-97 | Topology holds if and only if the accessibility service is among the entries; the mode is ONLINE, OFFLINE or UNKNOWN as the last expansion entry is online, offline or any other, and empty if there is none. |
| Plugin.GetNodeCapabilities | pkg/handler/plugin.go:101-124 | The set holds exactly the advertised types. |
| Plugin.GetFullCapability | pkg/handler/plugin.go:126-163 | A spec if and only if every call was answered, and then one that says exactly what was advertised. |
| Plugin.ModeSpelledOut | pkg/handler/plugin.go:82-95 | The mode of a spec, spelled out for each type of the last expansion entry. |
| Plugin.LastExpansionOne | pkg/handler/plugin.go:82-95 | The mode is determined by the list. |
| Plugin.OnlyExpansionsMatter | pkg/handler/plugin.go:74-95 | The mode depends only on the subsequence of expansion entries. |
| Plugin.SameEntriesSameSpec | pkg/handler/plugin.go:126-163 | Order and duplicates matter to nothing else. |
| Sidecar.CsiSidecarController.CreateOrUpdateProvisionerCRD | pkg/sidecar/controller.go:78-110 | Reads, then updates the object it read or creates a new one, under any failures. |
| Sidecar.CsiSidecarController.ContentWorker | pkg/sidecar/controller.go:63-76 | A tick writes the spec the plugin advertised, and nothing when a call was not answered. |
| Sidecar.EntriesNameTheirPlugin | pkg/sidecar/controller.go:63-110 | Over any interleaving of any sidecars with any failures, each entry belongs to the plugin it is named after. |
| Sidecar.SaveIsSafe | pkg/sidecar/controller.go:84-110 | A write touches only its own entry, never overwrites after a failed Get, replaces exactly what was read, and on success stores the answer. |
| Sidecar.QuietTickStores | pkg/sidecar/controller.go:63-110 | An undisturbed tick stores its answer if and only if the plugin name is not empty. |
| Sidecar.FailedGetIsSafe | pkg/sidecar/controller.go:84-110 | After a failed Get an existing entry is left alone and the tick reports a failure. |
| Sidecar.RepeatedTickIsSilent | pkg/sidecar/controller.go:91-97 | A tick that finds its answer stored still issues its Update, which changes and announces nothing. |
| EndToEnd.SaveIsExternal | pkg/sidecar/controller.go:84-110 | A sidecar's write is a step of the protocol's environment, or none. |
| EndToEnd.TickLeavesAnswer | pkg/sidecar/controller.go:63-110 | The undisturbed tick of a named plugin succeeds and leaves what it advertised, by a step of the protocol or by none. |
| EndToEnd.ReportsAtRest | pkg/controller/controller.go:365-419 | Where a key agrees with a plugin's stored answer, each flag of its capability holds exactly if advertised. |
| EndToEnd.PluginToUser | pkg/handler/plugin.go:126-163 | A run from an empty server, a sidecar's tick that succeeds, and a run in which nobody else meddles with its entry: at rest each flag of a StorageClass's capability holds if and only if its plugin advertised it, snapshot flags given a matching snapshot class, and the mode is the plugin's or UNKNOWN. |
| EndToEnd.QuietTickToUser | pkg/sidecar/controller.go:63-110 | The same for the fault-free tick of any named plugin. |
| Webhook.RetrieveAnnotations | pkg/webhook/controller.go:202-214 | The values under the three annotation keys, empty where absent, in whatever order the map is ranged over. |
| Webhook.AddSidecarContainer | pkg/webhook/controller.go:157-200 | A request is patched if and only if it is a pod with all three annotations not empty and the RBAC writes succeed; the patch then adds one container, whose name, image, pull policy, arguments, environment and mount are spelled out. |
| Webhook.PatchMeaning | pkg/webhook/controller.go:179-186 | Applying the patch keeps the containers in order and appends exactly one, whose fields are spelled out; the rest of the pod stays. |
| Webhook.AddClusterRoleBinding | pkg/webhook/controller.go:237-259 | Nothing stored changes; what is added is at most the role, rule by rule, and a binding of exactly this account in this namespace to it; success leaves an object under both names. |
| Webhook.GrantedExactly | pkg/webhook/controller.go:237-259 | Exactly which failing calls and manifests make it fail. |
| Webhook.GrantedIsMoves | pkg/webhook/controller.go:237-259 | An undisturbed admission is a run of the interleaved ones. |
| Webhook.CreateSidecarClusterRole | pkg/webhook/controller.go:261-274 | Creates the role of any manifest if absent; existing is success; a manifest that does not decode is an error without effect. |
| Webhook.CreateSidecarClusterRoleBinding | pkg/webhook/controller.go:276-289 | The same for the binding of any manifest. |
| Webhook.UniqueNameInjective | pkg/webhook/controller.go:248 | The generated name determines account and namespace among namespaces without the infix. |
| Webhook.OwnNameExactly | pkg/webhook/controller.go:248 | Among all strings, no other account has an account's generated name if and only if the infix occurs neither in the dash and the namespace nor in the account name and the dash. |
| Webhook.OwnValidNameExactly | pkg/webhook/controller.go:248 | Among subdomains and labels, no other account has it if and only if it splits in one place only. |
| Webhook.UncleanButOwn | pkg/webhook/controller.go:248 | A concrete valid account whose namespace contains the infix and whose name nevertheless splits in one place only. |
| Webhook.PatchedMayReport | pkg/webhook/controller.go:192-198 | Over any interleaving of admissions of accounts with distinct names, with failing calls, every admission answered with a patch has a binding with exactly its account and namespace as subject, to a stored role that allows to create, get and update ProvisionerCapabilities. |
| Webhook.CleanUnambiguous | pkg/webhook/controller.go:248 | The accounts of all namespaces without the infix have distinct names. |
| Webhook.PromisesKeptExactly | pkg/webhook/controller.go:192-289 | For any set of accounts: every run of their admissions keeps that promise if and only if no two of them get the same name. |
| Webhook.GrantIsRight | pkg/webhook/controller.go:237-289 | For any names, an untroubled admission leaves its account able to report if and only if what had the generated names before, if anything, served it. |
| Webhook.CollidingAdmissions | pkg/webhook/controller.go:276-289 | Two concrete accounts of which the second is patched but never bound. |
| Webhook.RepeatChangesNothing | pkg/webhook/controller.go:261-289 | Repeating a successful admission changes nothing. |
| InformerFactory.SharedInformerFactory.InformerFor | pkg/generated/informers/externalversions/factory.go:147-166 | The registered informer of a type, made on first use with its custom or the default resync period. |
| InformerFactory.SharedInformerFactory.Start | pkg/generated/informers/externalversions/factory.go:111-121 | Runs each registered informer that has not been started, once. |
| InformerFactory.SharedInformerFactory.WaitForCacheSync | pkg/generated/informers/externalversions/factory.go:124-143 | Waits on exactly the started informers. |
| InformerFactory.AnyClient | pkg/generated/informers/externalversions/factory.go:111-166 | Over any sequence of calls a type has one informer forever, run at most once. |

## Left out

- HTTP, TLS, flags, signals, logging and JSON encoding (`cmd`, `serveAdmitFunc`, `doServeAdmitFunc`): no step logic.
- The RPCs and `librpc.GetControllerCapabilities`: their answers are parameters; csi-lib-utils is not part of this model.
- client-go, the API server and the rate limiter's timing: contracts only; a delayed key fires at some later step.
- A restart is one step: caches hold the initial lists before any worker runs (lines 223-230), and the four lists are taken together.
- Finalizers that delay a deletion: the server then answers success and keeps the object, so the deletion would panic again after each restart.
- A relist after a lost watch is a sequence of deliveries, deletions possibly as tombstones; coalescing of several changes is not modelled.
- Errors of a lister other than "not found", and queue items that are not strings: client-go's listers and this program produce neither.
- Namespaced keys in the protocol: all four kinds are cluster-scoped, so a key is a name; the code in `Controller.dfy` is stated for keys with slashes too.
- DeepCopy.StorageClassCapability.DeepCopyInto: of the metadata it copies name, resource version, labels, annotations and finalizers; the rest is never read by this code, and the metadata's own copy function is not part of the repository.
- The generated copies of value types and of ProvisionerCapability: copies of plain values, or the same shape as the one modelled.
- Rendering and decoding of the RBAC manifests: the result is a record, and the step may fail.
- `IsValidKubernetesVersion`: version parsing is library work; when it fails the controller does not run.
