# Browser Controller: a verified model

This project models the controller that turns `Browser` resources into pods, and the
`BrowserConfig` store it reads its settings from, and proves what the two promise over
whole runs. `dafny verify dfyconfig.toml` checks all of it.

## What is modelled

**The reconciler** (`Kube`, `Cluster`, `Updates`, `Reconciler`). A `World` holds one Browser,
the pod of the same name, the clock and the content of the configuration store. A `Cluster`
object owns the world and answers API calls: each call is one atomic step, before it the
other actors (users, kubelet, scheduler, garbage collector, clock) may move by the relation
`Rely`, and it may fail with a conflict or another error. Every step goes into a ghost
trace. A `Run` is any trace that the server and the other actors allow, whatever a controller
sends. A `GuardedRun` is one in which, besides, the finalizer is dropped only for a reason, a
stored `Failed` is not taken back, and a pod is created only for a Browser that is held by the
finalizer and not Failed. These guards are preconditions of the cluster's calls, and the
reconciler meets them at every call: it is what makes runs guarded.

`BrowserReconciler` makes the controller's calls in the controller's order, with the Browser's
copy read once and never refreshed. Under any interference and faults `Reconcile` starts by
reading the Browser, and if it returns no error it leaves the state that its readings call for
(`Settled`, `VisitOf`), readings that are steps of this very round. An error is always one that
a call returned; if faults are excluded, there is none for a Browser that has the finalizer. On
a quiet cluster (nobody else moves, nothing fails) it computes the pure function
`Updates.CalmReconcile`.
`Runs`, `Deletion`, `Recreation`, `Convergence`, `StatusFacts`, `ReconcileFacts`, `OptionFacts`
and `ServerFacts` prove the properties.

**The configuration merge** (`ConfigMerge`, `MergeFacts`, `ConfigHeap`, `ConfigObjects`). Versions and the
template are objects full of pointers, and the merge assigns a version's fields in place,
sharing pointers with the template, over maps traversed in any order. It is proved equal to
a pure merge of values, and `MergeFacts` proves what that gives for every setting.

**Deep copy and the store** (`DeepCopy`, `Keys`, `StoreModel`, `Store`). The store copies each
delivered configuration, merges the copy and indexes its entries by key. The store keeps a
ghost history of its events, and `Get` is specified by that history. What the store holds is
the `configs` component of the reconciler's world.

**The pod** (`PodTemplate`, `PodFacts`, `PodBuilder`, `EndToEnd`). The builder fills a pod from the cached
configuration, sharing its arrays and maps, and applies the options of the Browser. It is
proved equal to the pure `PodTemplate.BuildPod`, and to leave the cache as it is. `PodFacts`
proves for every setting of the pod whether it comes from the options, the version or the
template. `EndToEnd` composes store, builder and reconciler.

The first rows of the table below are the main results, the others what they rest on.

## Assumptions

- One worker handles a Browser; reads are linearizable.
- Only this controller writes a Browser's status and its own finalizer; a Browser carrying the
  finalizer does not vanish; a name is not used again after its Browser is gone.
- A stored pod has a phase, and a newly created pod is `Pending`.
- A patch is a JSON merge patch (section 2 of RFC 7396): members that are equal in both copies
  keep their stored value, arrays are replaced whole, and metadata and status are patched
  separately.
- A call that returns an error was not applied.
- For the bound on deletion only: other actors do not create a pod of the Browser's name, and a pod's
  deletion time, once set, does not move into the future.
- The options annotation is decoded by an oracle that returns options or an error.

The configuration objects delivered to the store know their pointers (`Owned`), which is only
about ghost state.

## Where the code differs from its documentation

- "Exactly one Pod" and "failures are terminal": the failed pod is deleted before `Failed` is
  stored. If the write, or the read before it, returns an error, a second pod can be created
  (`Recreation.FailureCanBeLost`), exactly as long as `Failed` is not stored
  (`Recreation.RecreatedExactlyUnlessFailed`). Once it is stored it is final (`Runs.FailedIsFinal`).
- "Sidecars and init containers are merged by name, later overrides earlier": for init containers
  the lists are passed the other way round and the template wins
  (`ConfigMerge.OwnInitSurvives`).
- "nil fields inherit": a sidecar's working directory is replaced by the template's even if it is
  set (`ConfigMerge.OwnWorkingDir`).
- A pending pod without container statuses never times out (`StatusFacts.NoContainersNoTimeout`).
- An update that drops a version leaves it in the store (`StoreModel.DroppedVersionStays`,
  `StoreModel.MatchKept`).
- Finalizers that others set between a read and a patch are lost
  (`ReconcileFacts.ForeignFinalizers`).
- The pod that is created together with the Browser's labels is built from the unlabelled copy
  (`ReconcileFacts.FirstPodLabel`).
- Two browser names can share a key if one, followed by a colon, begins the other
  (`Keys.KeysMeet`).
- There is no browser level between template and version.

## Model

| member | source | states |
|---|---|---|
| Reconciler.BrowserReconciler.Reconcile | controllers/browser/browser_reconciler.go:75-258 | keeps the run guarded under all interference and faults, begins by reading the Browser, and returns no error that no call returned; without an error, of what its calls read in this round: the finalizer of a Failed Browser is gone; the finalizer, labels and first phase that the copy was missing were patched; for a pod not found, the configuration was looked up and the pod's creation sent, or the Browser failed with the message that says why; a failed pod was deleted by force; a pending pod's containers were judged in order, at times read in this round, and the failure of the first offender is stored; a terminating pod or a terminated critical container has the Browser dismissed; otherwise the status mirrors the pod; a Browser under deletion keeps the finalizer exactly if the visit has to wait; the delay asked for in each case; no error without faults while the finalizer holds the Browser; on a quiet cluster it computes CalmReconcile |
| Runs.Work | controllers/browser/browser_reconciler.go:67-72 | reconcile after reconcile from any well-formed world under any interference and faults: a run from that world with the four claims, in which every reconcile read the Browser; on a quiet cluster the iterated quiet reconcile, at rest after three |
| Runs.FailedIsFinal | controllers/browser/browser_reconciler.go:98-110 | over every run, once Failed is stored the Browser is Failed or gone at every later point |
| Runs.NoPodAfterFailed | controllers/browser/browser_reconciler.go:344-412 | over every run, no pod is created after Failed was stored, in the same or any later reconcile |
| Runs.CreationProtected | controllers/browser/browser_reconciler.go:112-121 | at every pod creation of a guarded run the Browser is stored under the pod's owner uid, name and namespace, is not Failed and carries the finalizer |
| Runs.RemovalJustified | controllers/browser/browser_reconciler.go:625-644 | each finalizer removal of a guarded run is a metadata patch that follows, in the same reconcile, a reading that justifies it |
| Runs.FinalizerStays | controllers/browser/browser_reconciler.go:75-258 | as long as a reconcile has read nothing that justifies it, the finalizer stays |
| Runs.RunsAreDisciplined | controllers/browser/browser_reconciler.go:75-258 | the four claims above for all points of any run |
| Convergence.RankDrops | controllers/browser/browser_reconciler.go:75-258 | on a quiet cluster every reconcile lowers the rank, or the rank is zero and nothing changes |
| Convergence.Converges | controllers/browser/browser_reconciler.go:75-258 | from any world only the first three reconciles change anything |
| Convergence.ThreeNeeded | controllers/browser/browser_reconciler.go:629-644 | three can be needed, because the finalizer added in the same reconcile is not seen on the older copy |
| Deletion.Drain | controllers/browser/browser_reconciler.go:261-327 | a worker reconciling a held Browser under deletion, without faults but under interference: every reconcile but the last waits, as read in its round, and the finalizer goes with the first that need not; at most (d + 300 s - t0) / 3 s + 1 wait for a pod stored with deletion time d at time t0, so after more the finalizer is gone |
| Recreation.FailureCanBeLost | controllers/browser/browser_reconciler.go:177-192 | from every world with a failed pod that nothing holds back and that can be built again there is a run in which one reconcile reads the pod and has its forced delete accepted, but the write of Failed, or the read before it, returns an error, and a later one creates a pod |
| Recreation.RecreatedExactlyUnlessFailed | controllers/browser/browser_reconciler.go:177-192 | with the pod of a configured, held Browser gone, a run can go on to create another one if and only if Failed is not stored |
| StatusFacts.PendingScanExact | controllers/browser/browser_reconciler.go:194-257 | a pending pod fails its Browser exactly when some container is terminated, waits too long or for a bad reason; it is deleted exactly when the first offender is a bad wait inside the timeout |
| StatusFacts.MirrorReached | controllers/browser/browser_reconciler.go:416-508 | although the change is judged on an older copy, the stored status mirrors the pod, and a second call with the re-read Browser writes nothing |
| Reconciler.BrowserReconciler.RetryUpdate | controllers/browser/browser_reconciler.go:563-592 | applied at most once, exactly when no error is returned: then the last call is the accepted patch of the Browser read right before it, against what is stored at that moment; it gives up exactly on an error that is no conflict, or after five conflicting patches and 3100 ms of sleep |
| ConfigObjects.SpecObj.MergeWithTemplate | apis/browserconfig/v1/browser_config.go:168-183 | for every iteration order each version ends as the pure merge, and the template is unchanged |
| MergeFacts.FieldByField | apis/browserconfig/v1/browser_config.go:186-260 | the merge setting by setting: the version's where there can be one only, maps and variables by key, lists after the template's, volume mounts before them, sidecars and init containers by name |
| MergeFacts.SidecarsByName | apis/browserconfig/v1/browser_config.go:207-223 | the version's sidecars in order, each clashing one merged with the first template entry of its name: its own command, resources and variables win, ports and mounts are added to the template's; then the other template entries, each once, in order |
| ConfigMerge.OwnInitSurvives | apis/browserconfig/v1/browser_config.go:225-227 | an init container of the version survives exactly if the template has none of its name or one with the same image |
| DeepCopy.CopySpec | apis/browserconfig/v1/zz_generated.deepcopy.go:88-132 | an equal specification that shares no object with what existed before |
| Store.BrowserConfigStore.OnAddOrUpdate | store/browserconfig_store.go:69-99 | merged copies under the object's keys; the delivered object is unchanged and shares nothing with them; other deliveries change nothing |
| Store.BrowserConfigStore.OnDelete | store/browserconfig_store.go:101-128 | the delivered object's keys are gone, all other entries stay |
| Store.BrowserConfigStore.Get | store/browserconfig_store.go:131-136 | an entry exactly if the latest event naming the key was an addition or update, and then a merged entry of that event; without separators in names, that is the latest event about the browser and version in any letter case |
| StoreModel.StoreIsLiveSet | store/browserconfig_store.go:69-136 | along any history the store holds exactly the live objects' keys with their merged entries if and only if no update drops a key and every deletion names all keys of its object and none of another |
| StoreModel.LastWriterExact | store/browserconfig_store.go:92-98 | if the latest addition or update naming a key has distinct keys, the key holds the merged entry of that key |
| StoreModel.OrderIrrelevant | store/browserconfig_store.go:92-98 | the iteration order shows exactly when two different entries of an object have the same key |
| Keys.KeysMeet | store/browserconfig_store.go:38-40 | two browser names can meet in a key exactly when they are equal up to letter case or one, followed by a colon, begins the other, in the same namespace |
| Keys.PlainKeysExact | store/browserconfig_store.go:38-40 | for names without separators keys are equal exactly for the same namespace and, letter by letter up to case, browser and version |
| EndToEnd.AskAfterDelivery | store/browserconfig_store.go:69-136 | a configuration that was delivered is found under any casing of its browser and version |
| PodBuilder.BuildBrowserPod | controllers/browser/browser_reconciler.go:646-859 | the pod the Browser, its configuration and its options call for; nothing that exists already is changed |
| PodFacts.MainSettings | controllers/browser/browser_reconciler.go:698-732 | the browser container has the version's image, is privileged exactly if the version says so, or the template where the version is silent, and takes its other settings from the version or else the template |
| PodFacts.SidecarSettings | controllers/browser/browser_reconciler.go:735-785 | after it one container for each merged sidecar, in order, none of them privileged, with the options' variables over the sidecar's |
| PodFacts.InitSettings | controllers/browser/browser_reconciler.go:657-696 | one init container for each merged entry, unprivileged and untouched by options; the version's working directory wins over the entry's |
| PodFacts.PodSettings | controllers/browser/browser_reconciler.go:829-858 | name, namespace, owner, hostname and restart policy; volumes, tolerations, host aliases and pull secrets of the template and then the version; the other settings of the version or else the template |
| PodFacts.AnnotationPrecedence | controllers/browser/browser_reconciler.go:808-827 | an annotation: version over template over the Browser's own, of which the options are left out |
| OptionFacts.BadOptionsFail | controllers/browser/browser_reconciler.go:373-387 | a Browser without a pod whose options annotation cannot be decoded ends Failed with the decoder's message, and no pod is created |
| OptionFacts.OptionsWin | controllers/browser/browser_reconciler.go:872-908 | in the pod created for it, every variable of the browser container and every label is that of the decoded options, else the version's, else the template's (labels: else the Browser's) |
| OptionFacts.NoOptionsNoChange | controllers/browser/browser_reconciler.go:862-871 | without the annotation, or with an empty one, they are those of version and template |
| OptionFacts.OnlyTheAnnotationIsDecoded | controllers/browser/browser_reconciler.go:862-881 | a reconcile depends on the decoder only through what it makes of the annotation |
| EndToEnd.PodFor | controllers/browser/browser_reconciler.go:344-412 | there is a pod exactly if the store has an entry for the Browser's key that is not nil; it is built from that entry, which is a merged entry of the latest event naming the key, and the store holds what it held |
| EndToEnd.PodOfWorld | controllers/browser/browser_reconciler.go:344-412 | with a reconciler's world reading from the store, the pod built from the store is the one the next quiet reconcile creates |
| PodFacts.EnvPrecedence | controllers/browser/browser_reconciler.go:709-711 | a variable of the browser container: options over version over template, which may be missing |
| EndToEnd.EnvPrecedenceOnLists | apis/browserconfig/v1/browser_config.go:283-307 | the same on lists with duplicates, the last of a name counting |
| PodFacts.LabelPrecedence | controllers/browser/browser_reconciler.go:789-806 | a pod label: options over version over template, which may be missing, over the Browser's own |
| Reconciler.BrowserReconciler.RetryStatusUpdate | controllers/browser/browser_reconciler.go:594-623 | the same for the status, where what is stored does not depend on the copy read; no error without faults while the finalizer holds the Browser |
| Reconciler.BrowserReconciler.EnsureFinalizer | controllers/browser/browser_reconciler.go:112-121 | without an error the stored Browser carries the finalizer afterwards |
| Reconciler.BrowserReconciler.EnsureLabels | controllers/browser/browser_reconciler.go:123-137 | finalizer and status survive; missing labels are sent as the last call, as the difference between the Browser read right before and its copy with the three labels set to its name, browser name and browser version; with the label there, no call is made |
| Updates.AmendsExact | controllers/browser/browser_reconciler.go:112-137 | adding and removing the finalizer and labelling do just that to a copy, and leave everything else |
| Reconciler.BrowserReconciler.EnsurePhase | controllers/browser/browser_reconciler.go:139-149 | the first phase is Pending, and the finalizer survives |
| Reconciler.BrowserReconciler.DeleteBrowser | controllers/browser/browser_reconciler.go:625-644 | needs a justification if the older copy has the finalizer; without an error the Browser is gone or under deletion, and rid of a finalizer which that copy had |
| Reconciler.BrowserReconciler.DeletePod | controllers/browser/browser_reconciler.go:329-342 | without an error a forced delete was accepted or there was no pod |
| Reconciler.BrowserReconciler.CheckOverdue | controllers/browser/browser_reconciler.go:291-306 | the wait ends exactly when the time read is more than five minutes after the deletion time, and then a forced delete was sent |
| Reconciler.BrowserReconciler.AwaitPod | controllers/browser/browser_reconciler.go:269-316 | the reconcile goes on to the finalizer exactly when the pod read in this round is not there or overdue, or could not be read |
| Reconciler.BrowserReconciler.HandleDeletion | controllers/browser/browser_reconciler.go:261-327 | without an error the finalizer goes exactly at a visit that need not wait, as read in this round; no error without faults while the finalizer holds the Browser |
| Reconciler.BrowserReconciler.HandleMissingPod | controllers/browser/browser_reconciler.go:344-403 | under interference and faults: without configuration or with bad options the Browser is Failed, and its message says so, unless an error is returned; otherwise the last call was the creation of its pod, with the options of its annotation (see OptionFacts), accepted or finding one exactly if no error is returned; needs the finalizer to be stored |
| OptionFacts.OptionsOfMissingPod | controllers/browser/browser_reconciler.go:372-390 | under interference, too: the pod is built unless the options annotation cannot be decoded, from the decoded options, or without any if there is no annotation |
| Reconciler.BrowserReconciler.MakePod | controllers/browser/browser_reconciler.go:391-403 | the last call creates the given pod; no error exactly if it was accepted or there was a pod by then |
| Reconciler.BrowserReconciler.ContainerPorts | controllers/browser/browser_reconciler.go:541-561 | the ports of the first container of that name that has any |
| Reconciler.BrowserReconciler.CollectStatuses | controllers/browser/browser_reconciler.go:457-470 | the pod's container statuses, each with the ports of its container |
| Reconciler.BrowserReconciler.StatusesDiffer | controllers/browser/browser_reconciler.go:472-487 | lengths differ, or some entry's restart count or state |
| Reconciler.BrowserReconciler.FindCritical | controllers/browser/browser_reconciler.go:420-424 | whether a browser or seleniferous container has terminated |
| Reconciler.BrowserReconciler.UpdateBrowserStatus | controllers/browser/browser_reconciler.go:416-508 | under any interference, without an error the stored status mirrors the pod, or the Browser is dismissed if a critical container has terminated |
| Reconciler.BrowserReconciler.JudgeContainer | controllers/browser/browser_reconciler.go:196-253 | under interference, ends the reconcile exactly for a container that offends at the time read from the clock in this turn, and without an error stores the failure that the verdict calls for, after a forced delete for a bad wait |
| Reconciler.BrowserReconciler.CheckAge | controllers/browser/browser_reconciler.go:217-232 | reads the clock and fails the Browser exactly if the pod is beyond the timeout |
| Reconciler.BrowserReconciler.ScanPending | controllers/browser/browser_reconciler.go:194-255 | under interference, judges the containers in order, each at a time read in the scan, stops at the first offender and stores its failure, after a forced delete for a bad wait |
| Reconciler.BrowserReconciler.HandlePod | controllers/browser/browser_reconciler.go:170-258 | a failed pod is deleted by force before any write about it is accepted; without an error the Browser is dismissed, Failed for the first offender of the scan, or mirrors the pod, as the pod read calls for |
| Reconciler.BrowserReconciler.FailPod | controllers/browser/browser_reconciler.go:177-192 | without an error a failed pod was deleted by force before the Browser was stored as Failed with the pod's reason; if the delete was not accepted, nothing was written |
| Reconciler.BrowserReconciler.StartDeletion | controllers/browser/browser_reconciler.go:275-288 | sends a delete, forced exactly for a failed pod; without an error the pod is gone or has a deletion time |
| Reconciler.BrowserReconciler.MarkFailed | controllers/browser/browser_reconciler.go:198-214 | without an error the stored status is the failure applied to the one before; no error without faults while the finalizer holds the Browser |
| Reconciler.BrowserReconciler.FailStuck | controllers/browser/browser_reconciler.go:234-249 | without an error a forced delete was accepted or found no pod, before the failure was stored |
| Reconciler.BrowserReconciler.EndBrowser | controllers/browser/browser_reconciler.go:425-448 | without an error a Browser with a terminated critical container is gone or under deletion |
| Reconciler.BrowserReconciler.ReconcileLive | controllers/browser/browser_reconciler.go:112-168 | the part of Reconcile for a live Browser: without an error what the copy was missing was patched, and the pod read in this round, or its absence, has been seen to |
| Reconciler.BrowserReconciler.PrepareBrowser | controllers/browser/browser_reconciler.go:112-149 | without an error what the copy was missing of finalizer, labels and first phase was patched in this round; the finalizer is stored, and the status is that of the copy with a first phase |
| Reconciler.BrowserReconciler.SeeToPod | controllers/browser/browser_reconciler.go:153-258 | without an error the pod read in this round, or its absence, has been seen to |
| Reconciler.BrowserReconciler.HandleFailed | controllers/browser/browser_reconciler.go:98-110 | without an error the finalizer of a Failed Browser is gone |
| ClusterModel.LateDeletionJustifies | controllers/browser/browser_reconciler.go:291-301 | a pod whose deletion time is read to be more than five minutes ago justifies the removal |
| ClusterModel.PodSeenJustifies | controllers/browser/browser_reconciler.go:171-174 | so does a terminating pod or a terminated critical container of a live Browser |
| ClusterModel.Cluster.Patch | controllers/browser/browser_reconciler.go:579-583 | patches metadata only, against what is stored at that moment; a patch that drops the finalizer has to be justified |
| ClusterModel.Cluster.PatchBrowserStatus | controllers/browser/browser_reconciler.go:610-614 | patches the status only; a patch that would take a stored Failed back must not be sent |
| ClusterModel.Cluster.Create | controllers/browser/browser_reconciler.go:406-413 | a pod is created exactly when none is stored and the call does not fail |
| ClusterModel.Cluster.RemovePod | controllers/browser/browser_reconciler.go:329-342 | a delete starts or shortens the termination, or removes the pod when nothing holds it |
| ClusterModel.Cluster.RemoveBrowser | controllers/browser/browser_reconciler.go:638-642 | a delete of a Browser with finalizers only marks it |
| ServerFacts.MergePatchExact | controllers/browser/browser_reconciler.go:579-580 | a map member in which the copies differ is written or removed, any other keeps its stored value |
| ServerFacts.MetaPatchExact | controllers/browser/browser_reconciler.go:579-580 | the same for the fields of the metadata endpoint, which leaves the status alone |
| ServerFacts.StatusPatchExact | controllers/browser/browser_reconciler.go:610-611 | the same for the status endpoint, which leaves everything else alone |
| ServerFacts.DeletePodExact | controllers/browser/browser_reconciler.go:329-342 | a pod goes at once exactly if due and not held; else it is due after its grace period, or at its earlier deletion time |
| ServerFacts.DeleteBrowserExact | controllers/browser/browser_reconciler.go:638-642 | a Browser goes at once exactly if it has no finalizers, else it keeps the time of the first delete |
| ServerFacts.LastFinalizer | controllers/browser/browser_reconciler.go:625-644 | a patch removes a Browser exactly if it is under deletion and loses its last finalizer |
| Deletion.Turn | controllers/browser/browser_reconciler.go:285-316 | one reconcile and its delay: the Browser comes again exactly if the visit made in this round waits, and then is still held |
| Deletion.PursuitEnds | controllers/browser/browser_reconciler.go:285-316 | visits to a pod that only grows older are bounded from its first known deletion time |
| Recreation.CreationMeansLost | controllers/browser/browser_reconciler.go:177-192 | in any run a creation after a write of Failed means that the write was not accepted |
| Recreation.RecreatedExactlyIfLost | controllers/browser/browser_reconciler.go:177-192 | in particular, right after a write of Failed: if and only if that returned an error |
| Recreation.PreparePlays | controllers/browser/browser_reconciler.go:112-149 | the calls that prepare a live Browser can all be answered, and lead to the prepared world |
| StatusFacts.StateEqualExact | controllers/browser/browser_reconciler.go:511-538 | on states with at most one member the comparison is equality of what is visible |
| StatusFacts.StateEqualOverlooks | controllers/browser/browser_reconciler.go:511-538 | without that condition a running state hides other changes |
| StatusFacts.NoContainersNoTimeout | controllers/browser/browser_reconciler.go:194-196 | a pending pod without container statuses is never failed, however old |
| StatusFacts.OffenderText | controllers/browser/browser_reconciler.go:196-253 | the message stored is that of the first offender: terminated, late or a bad wait |
| StatusFacts.FailedPodText | controllers/browser/browser_reconciler.go:177-192 | a failed pod's reason and message are the Browser's message |
| StatusFacts.CriticalText | controllers/browser/browser_reconciler.go:420-448 | a terminated critical container: the pod's reason and message are stored, and the Browser is under deletion or gone |
| StatusFacts.CriticalExact | controllers/browser/browser_reconciler.go:420-424 | critical are the containers named browser and seleniferous |
| StatusFacts.MirrorKeepsTheRest | controllers/browser/browser_reconciler.go:489-503 | mirroring leaves reason and message alone, and address, start time and containers where the test found no change |
| StatusFacts.EntriesStored | controllers/browser/browser_reconciler.go:457-499 | changed entries are stored as the pod's, with the ports of the first container of the name that has any |
| StatusFacts.PortsExact | controllers/browser/browser_reconciler.go:541-560 | no ports exactly if no container of the name has any |
| StatusFacts.NothingChanged | controllers/browser/browser_reconciler.go:452-490 | the two change tests together are exactly the negation of mirroring |
| ReconcileFacts.PatchKeepsTheRest | controllers/browser/browser_reconciler.go:576-580 | what an update does not alter keeps the value it has when the patch arrives |
| ReconcileFacts.ForeignFinalizers | controllers/browser/browser_reconciler.go:112-118 | other finalizers survive exactly when the patch says nothing about finalizers or they are those that were read |
| ReconcileFacts.DeletionBound | controllers/browser/browser_reconciler.go:290-309 | waiting visits three seconds apart to a pod deleted at d or sooner number at most (d + 300 s - t0) / 3 s + 1 |
| ReconcileFacts.FinalizerGoesOnTime | controllers/browser/browser_reconciler.go:261-327 | on a quiet cluster the finalizer stays exactly while the visit has to wait, and the Browser goes with its last finalizer |
| ReconcileFacts.PodGetsBuilt | controllers/browser/browser_reconciler.go:155-164 | a live Browser without a pod gets exactly the pod of its configuration and options |
| ReconcileFacts.FirstPodLabel | controllers/browser/browser_reconciler.go:123-137 | the pod created by the labelling reconcile has the label exactly if it comes from elsewhere |
| ReconcileFacts.LabelSetExactly | controllers/browser/browser_reconciler.go:123-137 | each of the three labels gets the Browser's name, browser name and browser version exactly unless the copy read had it and somebody took it away before the patch arrived |
| ReconcileFacts.LabelsPrepared | controllers/browser/browser_reconciler.go:123-137 | on a quiet cluster a live Browser ends up with all three labels, or keeps the ones it has if the first is right |
| ReconcileFacts.MissingConfigFails | controllers/browser/browser_reconciler.go:353-370 | without a configuration a Browser without a pod ends Failed with that reason and message |
| ReconcileFacts.WhenItComesBack | controllers/browser/browser_reconciler.go:75-327 | the delay asked for: three seconds exactly while a pod is awaited or was just created, half a minute exactly while the pod is only mirrored, else none |
| ConfigMerge.OwnSidecarSurvives | apis/browserconfig/v1/browser_config.go:368-392 | every sidecar of the version is in the result with its image |
| ConfigMerge.OwnWorkingDir | apis/browserconfig/v1/browser_config.go:440 | a version's sidecar keeps its working directory exactly if the template has no such sidecar or the same directory |
| MergeFacts.InitsByTemplate | apis/browserconfig/v1/browser_config.go:225-241 | init containers: the template's in order, clashing ones merged with the first template entry of the name, then the version's unclashing ones, each once, in order |
| MergeFacts.EntryByField | apis/browserconfig/v1/browser_config.go:435-448 | an entry merged with a template entry, setting by setting |
| MergeFacts.VersionByField | apis/browserconfig/v1/browser_config.go:168-171 | a missing template is like one that sets nothing; the image is the version's |
| MergeFacts.SpecByVersion | apis/browserconfig/v1/browser_config.go:168-183 | every entry stays, nil ones stay nil, the others are merged with the template setting by setting |
| ConfigMerge.ListMergeIdempotent | apis/browserconfig/v1/browser_config.go:317-332 | appending twice gives the same list exactly if the template has nothing to append |
| ConfigMerge.MapMergeIdempotent | apis/browserconfig/v1/browser_config.go:262-281 | merging a map twice changes nothing more |
| ConfigHeap.MergeMapPtr | apis/browserconfig/v1/browser_config.go:262-281 | the union with the override winning, nil only if both are, in a new object, for any order |
| ConfigHeap.MergeEnvPtr | apis/browserconfig/v1/browser_config.go:283-307 | the variables by name with the override winning, each name listed once, for any order |
| ConfigHeap.Append | apis/browserconfig/v1/browser_config.go:317-332 | both lists in order, nil when empty |
| ConfigHeap.CombineEntries | apis/browserconfig/v1/browser_config.go:381-391 | the override's entries, then the template's under other names |
| ConfigHeap.MergeSidecarPtr | apis/browserconfig/v1/browser_config.go:368-392 | the same with nil lists, in a new array |
| ConfigHeap.MergeWithEntry | apis/browserconfig/v1/browser_config.go:435-448 | the entry merged with a template entry, as MergeFacts.EntryByField spells out |
| ConfigHeap.FindClash | apis/browserconfig/v1/browser_config.go:214-217 | finds the first template entry of the name, if the version used the name |
| ConfigHeap.ResolveClashes | apis/browserconfig/v1/browser_config.go:211-223 | the nested loops merge each clashing entry exactly once, in place |
| ConfigObjects.MergeRefs | apis/browserconfig/v1/browser_config.go:186-260 | the merged record means the pure merge of template and version, which both stay |
| ConfigObjects.VersionObj.MergeWithSpec | apis/browserconfig/v1/browser_config.go:186-260 | in place, the version becomes the merge of the template and its own old configuration |
| ConfigObjects.MergeOne | apis/browserconfig/v1/browser_config.go:174-178 | merging one version leaves the template and every other version as they are, although pointers are shared |
| DeepCopy.CopySidecar | apis/browserconfig/v1/zz_generated.deepcopy.go:315-367 | an equal entry none of whose objects existed before |
| DeepCopy.CopyFields | apis/browserconfig/v1/zz_generated.deepcopy.go:135-286 | an equal record of pointers, all of them new |
| DeepCopy.CopyVersion | apis/browserconfig/v1/zz_generated.deepcopy.go:289-296 | an equal new version |
| DeepCopy.CopyTemplate | apis/browserconfig/v1/zz_generated.deepcopy.go:88-94 | an equal new template, nil for nil |
| DeepCopy.CopyBrowsers | apis/browserconfig/v1/zz_generated.deepcopy.go:95-121 | equal nested maps with new, pairwise distinct versions, nil entries kept, for any order |
| Keys.KeyForInjective | store/browserconfig_store.go:38-40 | for such names keys are equal exactly for the same namespace and, up to letter case, browser and version |
| Keys.KeysApartExactly | store/browserconfig_store.go:38-40 | key equality determines browser and version for all versions exactly when neither name, followed by a colon, begins the other |
| Keys.NestedHasColon | store/browserconfig_store.go:38-40 | names without a colon are never in that position |
| Store.Prepare | store/browserconfig_store.go:89-90 | the merged copy, with the delivered object and the cached versions unchanged |
| Store.BrowserConfigStore.WriteAll | store/browserconfig_store.go:92-98 | exactly the object's keys are written, each with an entry of that key, in any order |
| Store.BrowserConfigStore.RemoveAll | store/browserconfig_store.go:122-127 | exactly the object's keys are removed |
| StoreModel.LastWriter | store/browserconfig_store.go:69-136 | after any history a key holds a merged entry of the latest event naming it, and nothing if that was a deletion or there is none |
| StoreModel.LastInAnyCase | store/browserconfig_store.go:69-136 | without separators in names the latest event naming a key is the latest one about that browser and version in any letter case |
| StoreModel.Replay | store/browserconfig_store.go:69-99 | delivering an event again, however often, changes nothing |
| StoreModel.MatchKept | store/browserconfig_store.go:69-128 | a store that agrees with the live objects still does after an event exactly if an update drops no key, and a deletion names all keys of its object and none of another |
| StoreModel.DroppedVersionStays | store/browserconfig_store.go:92-98 | an update without a version leaves its key in the store |
| PodBuilder.EnvMapLast | controllers/browser/browser_reconciler.go:915-919 | a list of variables read by name gives the last variable of each name |
| PodBuilder.MergeEnvVars | controllers/browser/browser_reconciler.go:910-932 | the base by name with the overrides winning, the base itself untouched, for any order |
| PodBuilder.ContainersWithOptions | controllers/browser/browser_reconciler.go:889-898 | every container gets the options of its name and no other, in place |
| PodBuilder.ApplySelenosisOptions | controllers/browser/browser_reconciler.go:884-908 | containers and labels with the options on top |
| PodBuilder.FromInit | controllers/browser/browser_reconciler.go:660-692 | an init container, the version's working directory first |
| PodBuilder.FromSidecar | controllers/browser/browser_reconciler.go:745-775 | a sidecar container |
| PodBuilder.BuildContainers | controllers/browser/browser_reconciler.go:698-787 | the browser container, privileged if asked for (see PodFacts.MainSettings), and the sidecars after it |
| PodBuilder.BuildAnnotations | controllers/browser/browser_reconciler.go:808-827 | the Browser's annotations without its options, then the configuration's |

## Left out

- Generated clients, listers, informers, fakes, scheme registration and the CRD, RBAC and Docker files.
- Start-up, flags, logging and the two-branch finalizer reconciler of BrowserConfig.
- `Start`, informer synchronisation and the mutex of the store: a handler or a `Get` is one atomic step.
- Stale informer caches: with stale reads the claims about Failed do not hold.
- An API call that is applied although it returns an error.
- JSON decoding of the options: an oracle.
- The content of types that are only carried (affinity, tolerations, volumes, resources, security contexts, DNS): opaque values, copied by value where the program copies them.
- Log lines, and the fields of a pod's status that nothing compares.
- Lower-casing beyond ASCII letters; nil maps and slices are the same as empty ones where Go treats them alike.
- The order of merged variables: lists of variables are compared by name. Spare capacity of slices.
- The owner reference other than its uid.
- Deletion.Drain: the bound is for runs in which other actors only let the pod grow older; without that they could put up new pods for ever.
- StatusFacts.StateEqualExact: the signal and container id of a terminated state are not compared, as in the code.
- Reconciler.BrowserReconciler.Reconcile: what it leaves behind is stated for reconciles that return no error; for the others, that some call returned one, and that the run is guarded.
- Recreation.FailureCanBeLost: the run is given call by call, in the order in which the controller makes them; it is not derived from the method `Reconcile`.
- Store.BrowserConfigStore.Get: when two entries of one object have the same key, which of them is stored is left open, as it depends on map order.
