# A verified model of the Koupleless virtual kubelet

The virtual kubelet makes a base application look like a Kubernetes node. Its controllers keep
three delayed work queues, reconcile pods with a provider, report container statuses back to
Kubernetes, and compete for one lease per node. This project models that logic in Dafny and proves
what every run of it keeps.

## Layers

- **The work queue.** `WorkQueue` says what one locked section of the queue does, on values.
  `ItemList` and `LinkedWorkQueue` are the data structure in its own form (heap nodes, key index,
  items in processing, wakeup channel) and compute exactly those functions. `WorkerProtocol` puts
  any number of workers and callers around it (semaphore, lock, token, timer) and
  `WorkerGuarantees` proves wakeup, update, redirty, work-bound and progress theorems over all runs.
- **Status and deletion over the queue.** `StatusSync` interleaves notifiers, handlers with stale
  reads and the API server, and `StatusDivergence` shows that its conditions are the weakest;
  `ForceDelete` interleaves pod life cycles, stale reads and force deletions. Both run on
  `WorkQueue` states and use its by-key lemmas.
- **The reconciler and its provider.** `Reconcile` is one handler pass on values with its
  convergence and idempotence, `ReconcileRuns` the same over runs of cache changes, events, queue
  and handlers, and `ReconcileLoss` how a pod gets lost; `PodController` and `VPodProvider` are the
  classes that compute a pass,
  on top of `ContainerDiff` (what an update stops and starts), `ContainerStatuses` (pod status from
  container reports), `StatusFold` (status after any sequence of reports) and `FillPodKeys`.
- **The lease.** `Lease` is the protocol of any number of controllers with stale reads and failing
  calls; `LeaderElection` is the node object with the retry loop.
- **Keys and names.** `Strings` (split, join, last index) and `Codecs`.

Instants are integers. The clock, the rate limiter, handler results, retry verdicts, cache answers
and API failures are parameters or choices of a step, so every theorem holds for all of them.

## What the proofs brought out

- The queue reads a redirty instant equal to the zero time as "not redirtied"
  (virtual_kubelet/internal/queue/queue.go:194, 482, 491). The protocol only makes requests for
  instants after it; `RequestDuringProcessingSurvivesIff` gives the exact condition.
- A retry drops a redirty instant, so a key asked for again while it was failing may start later
  than asked; `RetryHonoursRequestsIff` says when it does not.
- Items with equal instants are not first come, first served (`PlacedBeforeEquals`).
- The waiting loop measures its sleep under the lock and makes the timer after releasing it; the
  timer is late by exactly the time in between (`NoLostWakeup`).
- A completion reads the clock twice, for the delay of a redirtied key and for its insertion
  (virtual_kubelet/internal/queue/queue.go:492, 215); the key is planned later than the least
  instant asked for by exactly the time in between (`RequeuedAtLeastInstant`).
- `podsEffectivelyEqual` says it ignores the status, but its path filter names a field no pod has
  (virtual_kubelet/node/podcontroller.go:562-575), so statuses are compared. The model compares them.
- The comment on `BizStateUnResolved` promises a terminated container (model/consts.go:98-99); the
  conversion gives an empty state (common/utils/utils.go:286-290). The model follows the conversion.
- The handler of status updates reads the pod through a cache and patches the difference to what it
  read. A stale read can make the patch empty and lose an update for good
  (`StaleReadBreaksConvergence`), and a pod that is recreated and learned under a patch meant for
  its predecessor can end up with a mixture (`LearningDuringPatchBreaksConvergence`).
  `ReadIsCarefulIff` and `LearningIsCarefulIff` are the exact conditions, case by case and field by
  field, and `CarelessStepDiverges` shows that none weaker will do.
- A pass of the reconciler that saw no pod acts later; if the pod is created again in between, the
  pass drops what is known about the new one, which then is never made in the provider
  (`RecreationDuringPassLosesPod`). `ActKeepsConvergingIff` says exactly when a pass does that.
- An event the node does not act on, because it is not the leader or because the pod had ended
  before, is not made up for later; `IdleDeliveryIsCarefulIff` says when that does no harm, and
  `CarelessStepLosesPod` that the pod is out of line otherwise.
- A notification about a pod not yet known stores the pod the cache had, not the status the provider
  reported (virtual_kubelet/node/pod.go:241-244, 274).
- The handler of force deletions compares UIDs on a read that may be stale, which is not enough;
  the UID precondition of the delete call is (`ComparingUidsIsNotEnough`). A read that does not show
  the pod ends its deletion for good (`LossIsFinal`), unless the key was scheduled again meanwhile.
- A lease that expires while nobody is renewing it is never recovered, not even by its holder;
  `ExpiredLeaseRecoversIff` says exactly when it can be.
- Two business containers of one name but different images make a report about a third container
  change an image (`FoldAlwaysHoldsIff`).

## Model

| member | source | states |
|---|---|---|
| WorkQueue.PlacedBeforeEquals | virtual_kubelet/internal/queue/queue.go:235-244 | a new item stands behind all strictly earlier ones and in front of its equals, the others keep their order |
| WorkQueue.PlaceKeepsOrder | virtual_kubelet/internal/queue/queue.go:235-244 | placing an absent key keeps the list sorted with distinct keys and changes what is found for no other key |
| WorkQueue.BringForwardByKey | virtual_kubelet/internal/queue/queue.go:247-264 | repositioning a waiting key gives it the earlier of its instant and the requested one and leaves every other key alone |
| WorkQueue.BroughtBeforeEquals | virtual_kubelet/internal/queue/queue.go:247-264 | asked for at its own instant or earlier, a waiting key moves behind all strictly earlier items and in front of its equals |
| WorkQueue.InsertByKey | virtual_kubelet/internal/queue/queue.go:162-245 | the queue as a map from key to item: a waiting key takes the minimum, a key in processing records a redirty and loses its forget mark, an absent key waits for the delay that applies; the queue invariant is kept |
| WorkQueue.InsertedItem | virtual_kubelet/internal/queue/queue.go:206-233 | the new item of a key neither waiting nor in processing, field by field: the delay asked for wins over the rate limit, without either it is due at once |
| WorkQueue.RequestedInProcessing | virtual_kubelet/internal/queue/queue.go:189-203 | a request during processing records the earlier instant with that request's rate limit, lifts the forget mark and changes nothing else |
| WorkQueue.ForgetByKey | virtual_kubelet/internal/queue/queue.go:127-152 | a waiting key leaves, a key in processing is only marked (its redirty instant stays), other keys are unchanged |
| WorkQueue.TakeByKey | virtual_kubelet/internal/queue/queue.go:362-381 | the item that starts has a least planned instant and moves unchanged into processing, where its key was not |
| WorkQueue.CompleteByKey | virtual_kubelet/internal/queue/queue.go:459-495 | after a handler the key waits exactly if it was not forgotten and either the handler failed and is retried, or a redirty is recorded; a forgotten key leaves nothing whatever its handler returned; never over another item |
| WorkQueue.CompletedItem | virtual_kubelet/internal/queue/queue.go:473-492 | the item that waits then, field by field: a retry carries count and first enqueue on and is planned by its own delay, a redirtied key starts anew at its redirty instant |
| ItemList.List.InsertByTime | virtual_kubelet/internal/queue/queue.go:235-244 | the backward walk over heap nodes inserts where the specification places the item, and the links stay consistent |
| ItemList.List.AdjustPosition | virtual_kubelet/internal/queue/queue.go:247-264 | moving a node in place yields the brought-forward list with the same nodes |
| ItemList.List.Remove | virtual_kubelet/internal/queue/queue.go:142 | unlinking a node removes exactly its index from the represented sequence |
| ItemList.QueueItem.Redirty | virtual_kubelet/internal/queue/queue.go:193-201 | the fields of an item in processing become those of the earliest redirty with the forget mark lifted |
| LinkedWorkQueue.Queue.Insert | virtual_kubelet/internal/queue/queue.go:167-245 | list, index and processing map stay valid together and represent the specified insert; a token is in the wakeup channel |
| LinkedWorkQueue.Queue.Forget | virtual_kubelet/internal/queue/queue.go:127-152 | the represented queue becomes the specified forget, no token is sent |
| LinkedWorkQueue.Queue.TryTake | virtual_kubelet/internal/queue/queue.go:361-384 | the locked part of the waiting loop: empty, not due with the positive remaining wait, or the front item taken when due |
| LinkedWorkQueue.Queue.Complete | virtual_kubelet/internal/queue/queue.go:456-495 | the represented queue becomes the specified completion, with the outcome returned and a token exactly if an item was inserted |
| LinkedWorkQueue.Queue.Len | virtual_kubelet/internal/queue/queue.go:280-289 | list and index never disagree, so the panic is unreachable; the result counts waiting and processed items |
| LinkedWorkQueue.Queue.UnprocessedLen | virtual_kubelet/internal/queue/queue.go:291-300 | the panic is unreachable and the result counts the waiting items |
| LinkedWorkQueue.Queue.IndexAgrees | virtual_kubelet/internal/queue/queue.go:56-58 | a key is indexed exactly if it is listed, and its element stands at the key's own place in the list |
| WorkerProtocol.AlwaysConsistent | virtual_kubelet/internal/queue/queue.go:354-495 | every step keeps the queue invariant, one semaphore holder in the waiting loop, and one worker per key in processing |
| WorkerProtocol.MutualExclusion | virtual_kubelet/internal/queue/queue.go:377-381 | in every run no two workers handle one key, a handled key is not waiting, and a returning handler finds the very item its worker took, changed at most by redirty and forget marks |
| WorkerProtocol.AlwaysOwnItems | virtual_kubelet/internal/queue/queue.go:377-381 | in every run what is in processing under a worker's key is the item that worker took, but for marks made since |
| WorkerGuarantees.NoLostWakeup | virtual_kubelet/internal/queue/queue.go:182-187 | in every run a sleeping worker sleeps on an empty list or no later than the front is planned, or a token is waiting for it; its timer lags by exactly the time between measuring and arming |
| WorkerGuarantees.DueWorkCanBeTaken | virtual_kubelet/internal/queue/queue.go:354-400 | in every reachable state with a due item and a worker that is free, the workers alone can start that item within four steps, waiting at most the timer lag |
| WorkerGuarantees.NoLostUpdate | virtual_kubelet/internal/queue/queue.go:189-203 | in every run a key enqueued since its last handler start and not forgotten since is waiting, or in processing with a redirty recorded and no forget standing |
| WorkerGuarantees.DroppedIsNotStarted | virtual_kubelet/internal/queue/queue.go:127-152 | after any run, a key that is forgotten never waits and no handler starts for it until it is asked for again, whatever the handler it may have returns and the retry function says |
| WorkerGuarantees.RequestDuringProcessingSurvivesIff | virtual_kubelet/internal/queue/queue.go:193-200 | a request made during processing brings the key back after success exactly if its instant is not the zero time, or an even earlier redirty stands |
| WorkerGuarantees.RequeuedAtLeastInstant | virtual_kubelet/internal/queue/queue.go:190-203 | in every run a key that succeeds or is given up is planned again at the least instant asked for since it started, late by exactly the time between the completion's two readings of the clock, and not at all if none was; a retry is planned by its own delay |
| WorkerGuarantees.RetryHonoursRequestsIff | virtual_kubelet/internal/queue/queue.go:473-480 | in every run a retried key is in time for every request made since its handler started exactly if its retry delay ends by the recorded redirty instant |
| WorkerGuarantees.BoundedWork | virtual_kubelet/internal/queue/queue.go:466-495 | with the default retry function, per key and in all, handler starts are at most MaxRetries times the enqueues, and every waiting item has fewer requeues |
| WorkerGuarantees.BoundIsReached | virtual_kubelet/internal/queue/queue.go:513-520 | for every key there is a run with one enqueue and exactly MaxRetries handler starts |
| StatusSync.StatusConverges | virtual_kubelet/node/pod.go:150-202 | in every run whose reads and learnings are careful, stale ones included, a known, still existing pod whose phase in the API server is neither Succeeded nor Failed and that was not given up has its last provider status there, or a notifier, the queue or a handler still has to deal with it |
| StatusSync.QuiescentIsConverged | virtual_kubelet/node/pod.go:266-277 | when no notifier, item or handler is left after such a run the two statuses of a pod in any other phase, or in none, are equal |
| StatusSync.AnsweredPassStoresStatus | virtual_kubelet/node/pod.go:150-189 | in every reachable state a pass on the current pod whose calls are answered ends with the stored status in the API server, unless the pod is Succeeded or Failed there, and then nothing is changed |
| StatusSync.ReadIsCarefulIff | virtual_kubelet/node/pod.go:297-310 | exactly which reads are careful for a tracked pod nobody awaits: an error; no pod or a terminal version if nothing is owed; any other version if every field in which the current and the stored status differ also differs between the version and the stored status, or the patch ends the pod |
| StatusSync.LearningIsCarefulIff | virtual_kubelet/node/podcontroller.go:298-304 | exactly which learnings, of any version and wherever the key's handler is, are careful: without a patch to come, if nothing is owed to what was learned; before a patch, as for a read; under a patch, if every field ends as it was learned, or the pod ends |
| StatusSync.LearningUnderPatchIsCarefulIff | virtual_kubelet/node/podcontroller.go:298-304 | learning the current pod while a handler of its key is patching is careful exactly if the patch sets no field to another value, or ends the pod |
| StatusSync.UpToDateRunIsCareful | virtual_kubelet/node/pod.go:297-303 | runs in which handlers read the current pod and pods are learned in their current version, not under a patch, are careful |
| StatusDivergence.CarelessStepDiverges | virtual_kubelet/node/pod.go:186-189 | the condition is the weakest: after any run, a read or learning that is not careful can be followed by at most the rest of its handler's own successful steps and leaves a status in the API server that is not the provider's last |
| StatusDivergence.OffCourseDiverges | virtual_kubelet/node/pod.go:175-189 | a tracked key nobody will handle again whose handler leads elsewhere diverges as soon as that handler goes on |
| StatusDivergence.HandlerPassConvergesIff | virtual_kubelet/node/pod.go:279-311 | a handler pass on any version it may read leaves the pod settled exactly under that field condition |
| StatusSync.PatchReachesTarget | virtual_kubelet/node/pod.go:186-189 | a merge patch yields the wanted status if it was computed from the current one or the current one is already wanted |
| StatusSync.PatchHitsIff | virtual_kubelet/node/pod.go:186-189 | a merge patch yields the wanted status exactly if every field in which current and wanted differ also differs between base and wanted |
| StatusSync.PatchYieldsIff | virtual_kubelet/node/pod.go:186-189 | a merge patch yields a given status exactly if each field of it is the one set, where base and wanted differ, or the current one |
| StatusSync.PatchLeavesIff | virtual_kubelet/node/pod.go:186-189 | a merge patch leaves the current status exactly if it sets no field to another value |
| StatusSync.StepKeepsAwaited | virtual_kubelet/node/pod.go:266-277 | a pending key stays pending until its own handler starts, and a retried failure makes its key pending |
| StatusDivergence.StaleReadBreaksConvergence | virtual_kubelet/node/pod.go:297-310 | for any two different statuses of a pod that does not end there is a run with one stale read that comes to rest with the wrong one in the API server |
| StatusDivergence.LearningDuringPatchBreaksConvergence | virtual_kubelet/node/pod.go:163-189 | for any statuses where a patch meant for a pod changes its recreated successor, there is a run that learns the successor under the patch and comes to rest with different statuses |
| ForceDelete.OnlyMarkedPodsAreDeleted | virtual_kubelet/node/pod.go:313-372 | in every run with stale reads and recreated pods, each pod deleted by a queue handler had itself been marked for deletion |
| ForceDelete.UnmarkedPodSurvivesHandlers | virtual_kubelet/node/pod.go:344-371 | no handler step changes or removes a pod that is not marked |
| ForceDelete.QueuedKeysNameMarkedPods | virtual_kubelet/node/podcontroller.go:418-423 | every waiting or handled key names a marked pod, contains a slash, and is taken apart into exactly the namespace, name and UID it was made of |
| ForceDelete.HandlerPassDeletes | virtual_kubelet/node/pod.go:333-371 | a handler pass whose calls are answered deletes the pod its key names and nothing else |
| ForceDelete.NoDeletionIsLost | virtual_kubelet/node/podcontroller.go:418-459 | after any run, whatever follows the scheduling of a deletion, its pod is gone, or its key waits, is redirtied, or is with a handler that has yet to delete or to be retried, as long as no read misses the pod and no failure is given up while the key is not awaited |
| ForceDelete.AtRestDeletionsAreDone | virtual_kubelet/node/podcontroller.go:418-459 | when nothing waits or is handled after such a run the deletion is done |
| ForceDelete.StepAccountsIff | virtual_kubelet/node/pod.go:333-347 | a step leaves a deletion that is accounted for accounted for exactly if it is neither such a read nor such a giving up; a forgotten deletion, only ever that of a pod already gone (vnode_controller/vnode_controller.go:438-440), loses nothing |
| ForceDelete.LossIsFinal | virtual_kubelet/node/pod.go:340-347 | after any run, a step that loses a deletion leaves the pod there, and until it is scheduled again its key never waits or is handled and no handler deletes that pod, whatever happens |
| ForceDelete.MissingReadLosesDeletion | virtual_kubelet/node/pod.go:333-339 | for every pod there is a run in which a read that misses it ends its deletion; everything is at rest and the pod, marked, still there |
| ForceDelete.ComparingUidsIsNotEnough | virtual_kubelet/node/pod.go:344-358 | for any two pods of one name a handler can pass the UID comparison for the first while the name belongs to the second, which only the delete precondition keeps |
| Reconcile.PassConverges | virtual_kubelet/node/podcontroller.go:350-475 | in every reachable state one pass leaves no stored pod if the cache has none or a deleted running one, a stored pod with the same containers and updatable fields if the cached one is known, live and neither Failed nor Succeeded, the force deletion scheduled of a cached pod marked for it, and other keys as they were |
| Reconcile.SecondPassIsSilent | virtual_kubelet/node/podcontroller.go:424-443 | a second pass with the same cache, or with the pod in another resource version only, makes no provider call and changes neither store nor known pods, whatever happens to other keys and reports in between |
| Reconcile.AlwaysLinked | virtual_kubelet/node/podcontroller.go:431-475 | in every run the version last acted on is live and not terminal only if an equal pod is stored, and deleted only if none is and its force deletion was scheduled |
| Reconcile.PassSchedules | virtual_kubelet/node/podcontroller.go:418-459 | a pass on a pod marked for deletion that no longer runs, or that it acts on, schedules the deletion of that pod's own UID, and no pass schedules any other |
| Reconcile.DeletionIsScheduled | virtual_kubelet/node/podcontroller.go:418-423 | a pass on a deleted pod puts its own deletion key into the queue, at once or after the grace period, never later than it already waited |
| ReconcileRuns.ReconcileConverges | vnode_controller/vnode_controller.go:300-441 | in every run of cache changes, events, queue and handlers in which events that matter enqueue their key, no pass drops its cached pod and its failures are retried, the key is reconciled (cached pods known, live ones stored with their containers and updatable fields, marked ones with their force deletion scheduled, others not stored), or an event that matters, the queue or a handler still has to deal with it |
| ReconcileRuns.AtRestMirrored | virtual_kubelet/node/podcontroller.go:350-475 | when no event, item or handler is left after such a run, every key is reconciled in that sense |
| ReconcileRuns.HeardEventIsQueued | vnode_controller/vnode_controller.go:770-801 | an event makes its key awaited exactly if the node acts on it and it tells of a new pod, a removed one, or other containers, updatable fields or deletion, otherwise the queue stays as it was; an added or updated pod is known in any case, a removed one no longer if the node acts on it |
| ReconcileRuns.ActKeepsConvergingIff | virtual_kubelet/node/podcontroller.go:381-401 | a pass keeps its key converging exactly if it did not see no pod while one is cached and stored now and no event about it is to come |
| ReconcileRuns.CarefulRunConverges | vnode_controller/vnode_controller.go:300-441 | the weaker conditions on steps that are enough: an event may be left alone if another is to come or the key is served without it, a failure given up if nothing is needed then or the key is awaited |
| ReconcileRuns.PromptRunIsCareful | vnode_controller/vnode_controller.go:300-441 | runs in which every event that matters enqueues and every failure is retried meet them |
| ReconcileRuns.IdleDeliveryIsCarefulIff | vnode_controller/vnode_controller.go:300-441 | with nobody at work on a key and no other event to come, an event that matters can be left alone exactly if the provider already has what the cache asks for |
| ReconcileLoss.CarelessStepLosesPod | virtual_kubelet/node/podcontroller.go:391-401 | the conditions are the weakest: after any run and a step that breaks one, with no further event about the key, whatever follows but another change of it, the key is out of line whenever it is neither handled nor awaited |
| ReconcileLoss.CarelessStepGoesWrong | virtual_kubelet/node/podcontroller.go:391-401 | and it is out of line after that step, or after the act of the handler that has looked |
| ReconcileLoss.RecreationDuringPassLosesPod | virtual_kubelet/node/podcontroller.go:381-427 | for any two live pods of one key there is a run in which a pass that saw the first one gone drops the second, which then is cached, unknown and never stored |
| PodController.PodController.SyncPodsFromKubernetesHandler | virtual_kubelet/node/podcontroller.go:349-406 | the handler computes the specified pass, touches the base and the listener only when the specification says so, and fails exactly when the cache does, then changing nothing, or the provider loses the pod under an update, then with that pod gone, the last used version as it was and the error written |
| PodController.PodController.SyncPodInProvider | virtual_kubelet/node/podcontroller.go:408-475 | known pods, store and deletions become the specified ones; a failed update leaves the last used version alone and its error written |
| PodController.PodController.CreateOrUpdatePod | virtual_kubelet/node/pod.go:63-106 | afterwards the stored pod has the given containers and updatable fields; a stored pod causes no call exactly if it had both already, a missing one starts all containers, a different one exactly the changed and new ones; it fails exactly when the pod to update vanishes, and then writes the error |
| PodController.PodController.HandleProviderError | virtual_kubelet/node/pod.go:108-131 | the written pod has no resource version, is Failed exactly if it is never restarted and Pending otherwise, carries reason and message, and is the given pod in every other field |
| PodController.PodController.DropPod | virtual_kubelet/node/podcontroller.go:381-401 | a pod the cache lacks is stopped, dropped from the store and no longer known |
| PodController.PodController.AddKnownPod | virtual_kubelet/node/podcontroller.go:298-304 | a pod becomes known with the given status and without a version acted on |
| PodController.PodController.EnqueuePodStatusUpdate | virtual_kubelet/node/pod.go:206-277 | an equal provider pod is skipped, any other is stored and its key enqueued with the rate limit; for an unknown pod the notification waits, ends without effect if the cache has none or time is over, and else stores the cached pod it carries by then |
| PodController.AwaitingIff | virtual_kubelet/node/pod.go:225-253 | a notification about an unknown pod is stored exactly if the cache has the pod in every round until one teaches it, and it carries the cached pod of that round |
| PodController.AnyRunning | virtual_kubelet/node/podcontroller.go:577-588 | some container is neither terminated nor waiting |
| ContainerDiff.DiffIsCorrect | provider/vpod_provider.go:277-311 | stopping the changed and then starting the changed and new containers, in any order, leaves the new containers and the dropped old ones running; exactly the new ones iff no old name is dropped |
| ContainerDiff.UnchangedIsUntouched | provider/vpod_provider.go:288-300 | no call names an unchanged or dropped container |
| ContainerDiff.DiffByContainer | provider/vpod_provider.go:286-300 | container by container: stopped is exactly what is named before and after and differs, as it was, started what is new or differs, as it shall be, each once |
| ContainerDiff.ByNameIsLast | provider/vpod_provider.go:277-284 | the last container of a name stands for it |
| ContainerDiff.CollectChanged | provider/vpod_provider.go:286-294 | whatever order the map is iterated in, the stop list is each changed container once as it was, the first part of the start list each as it shall be |
| ContainerDiff.CollectNew | provider/vpod_provider.go:295-300 | the start list becomes each changed or new container exactly once |
| ContainerDiff.WaitStopped | provider/vpod_provider.go:313-344 | containers are started exactly if some poll confirms every stop before the pod is gone or time is over |
| ContainerDiff.IsConfirmed | provider/vpod_provider.go:329-339 | for every stopped container the last status of its name, if any, is terminated |
| ContainerDiff.ConfirmedInTimeByStates | provider/vpod_provider.go:313-344 | no start follows unless a poll before the pod is gone shows no stopped container with a status that is not terminated |
| ContainerDiff.IndexContainers | provider/vpod_provider.go:277-284 | the map by name in which a later container replaces an earlier one |
| VPodProvider.VPodProvider.UpdatePod | provider/vpod_provider.go:258-348 | a deleted pod is skipped, an unknown one is an error, any other replaces the stored pod, and causes the stops of exactly the old containers the new pod has changed and, once confirmed, the starts of exactly its changed and new ones, then one notification |
| VPodProvider.VPodProvider.HandleBizBatchStart | provider/vpod_provider.go:180-194 | one start for each container in order, to this node and under the pod's own key |
| VPodProvider.VPodProvider.HandleBizBatchStop | provider/vpod_provider.go:210-230 | one stop for each container in order, to this node and under the stop key |
| VPodProvider.StopKeyIff | provider/vpod_provider.go:225-229 | stops are sent under the pod's own key, but for keys that end in not-exist-pod, under none |
| VPodProvider.VPodProvider.CreatePod | provider/vpod_provider.go:245-256 | the pod is stored, every container is started once in order, the listener is told |
| VPodProvider.VPodProvider.DeletePod | provider/vpod_provider.go:350-366 | the pod is no longer stored, its containers are stopped under its key or, for a not-exist-pod, the empty key |
| VPodProvider.VPodProvider.SyncBizStatusToKube | provider/vpod_provider.go:82-96 | only the status of the pod the report names changes, and the listener gets the stored pod; a report about no stored pod does nothing |
| VPodProvider.VPodProvider.SyncEachBizStatusToKube | provider/vpod_provider.go:155-158 | a batch has the effect of its reports one after the other |
| VPodProvider.VPodStore.GetPods | provider/vpod_store.go:67-77 | every stored pod exactly once |
| ContainerStatuses.GetPodStatus | provider/vpod_provider.go:377-503 | the counting loop never fails and yields the converted statuses of the business containers in order, with the phase by their states: Succeeded iff each is terminated and not ready, else Running iff one is ready, or waits or runs and is not terminated, else Pending; both conditions true iff there is one and all are ready |
| ContainerStatuses.StatusIsByStates | provider/vpod_provider.go:425-500 | the specified status has that phase and these conditions, read off the container states |
| ContainerStatuses.EqualFoldIff | common/utils/utils.go:273-309 | a reported state is a state name exactly up to the case of its letters |
| ContainerStatuses.DecideIsExact | provider/vpod_provider.go:425-500 | the decision on the counters: Succeeded iff all are terminated, Running iff some is ready or not ready otherwise, Pending in the rest; ready iff there is one and all are |
| ContainerStatuses.CountersPartition | provider/vpod_provider.go:412-422 | the four counters add up to the number of business containers |
| ContainerStatuses.CounterSays | provider/vpod_provider.go:412-422 | a counter is full iff all statuses are of its kind and positive iff one is |
| ContainerStatuses.CountStatus | provider/vpod_provider.go:412-422 | each status raises exactly the counter of its kind |
| ContainerStatuses.ConvertFailsIff | common/utils/utils.go:235-270 | conversion fails exactly when it would have to keep another container's status; otherwise the result carries the container's own name |
| ContainerStatuses.ReportedStateIff | common/utils/utils.go:272-326 | which reported state sets which container state, exclusively, with the reported reason, message and time; ready exactly when activated |
| ContainerStatuses.StatusAfter | provider/vpod_provider.go:393-410 | a business container's status always carries its own name, so conversion cannot fail there |
| ContainerStatuses.IndexByName | provider/vpod_provider.go:393-396 | a lookup by name finds the last status of that name |
| ContainerStatuses.NamedIsLast | provider/vpod_provider.go:393-396 | the status found under a name is the last one listed under it, and there is none exactly if no status has the name |
| StatusFold.ReportsFold | provider/vpod_provider.go:83-96 | after any reports each business container, in order, has the status of the last report about it, else its original one, else the empty one |
| StatusFold.DistinctNamesFold | provider/vpod_provider.go:83-96 | the fold holds for every pod whose container names are distinct |
| StatusFold.UnreportedIsNotStarted | common/utils/utils.go:238-251 | after any reports a container that had no status and that none is about is not ready, not started and in no state |
| StatusFold.FoldAlwaysHoldsIff | provider/vpod_provider.go:393-410 | the fold holds for all report sequences exactly if business containers of one name have one image |
| StatusFold.StoredStatusesFold | provider/vpod_provider.go:155-158 | the fold for a stored pod under reports about any pods: only the reports naming it count, all its other fields stay |
| FillPodKeys.FillPodKey | common/utils/utils.go:375-402 | reports are filled in place and split into two lists that merge back in order: those with a pod key, and those without one whose container no pod has |
| FillPodKeys.FilledMeans | common/utils/utils.go:386-399 | a given pod key is kept, a filled one is that of a pod with a business container of that key, and a report stays without one iff no pod has its container |
| FillPodKeys.ReportFindsPod | common/utils/utils.go:344-388 | a report finds a pod exactly if one has a container whose image has .jar in it and whose name and BIZ_VERSION, with a colon between, are the report's key; it gets that pod's namespace and name with a slash between |
| PodModel.VersionIsFirst | common/utils/utils.go:345-354 | the version is the value of the first BIZ_VERSION variable, and empty without one |
| FillPodKeys.SplitIsUnique | common/utils/utils.go:386-399 | the split is determined: there is only one such pair of lists |
| FillPodKeys.MergesKeepElements | common/utils/utils.go:386-399 | the two lists together hold each report as often as the input |
| FillPodKeys.CollectPodKeys | common/utils/utils.go:376-384 | each business key maps to the last pod that has a jar container of it |
| FillPodKeys.OwnerIsLast | common/utils/utils.go:376-384 | of several pods with a container of one key the last one owns it |
| Lease.AtMostOneLeads | provider/vnode.go:296-321 | in every interleaving and whatever the clocks, at most one controller believes it is the leader, and it is the holder in the server |
| Lease.HolderNeverChanges | vnode_controller/vnode_controller.go:557-616 | once created the lease keeps its holder in every continuation |
| Lease.CreatorLeads | vnode_controller/vnode_controller.go:574-597 | in every run, a controller that finds no lease and whose create succeeds holds it in the server and leads until the lease's duration is over |
| Lease.HolderRenews | vnode_controller/vnode_controller.go:608-616 | in every run, the holder that reads its unexpired lease and whose patch succeeds has written the instant it took after the read, and keeps the copy it read |
| Lease.LeadingImpliesServerUnexpired | vnode_controller/vnode_controller.go:608-616 | with one clock a local renew time never exceeds the server's, so who believes to lead holds an unexpired lease there |
| Lease.ServerRenewNeverDecreases | vnode_controller/vnode_controller.go:608-612 | with one clock the server's renew time never goes back |
| Lease.ExpiredLeaseIsNeverRecovered | vnode_controller/vnode_controller.go:602-606 | a lease that expires while nobody is renewing it is never changed again and nobody leads any more |
| Lease.ExpiredLeaseRecoversIff | vnode_controller/vnode_controller.go:602-616 | with one clock an expired lease can be recovered by some continuation exactly if a controller has yet to take its instant or is patching in one that is not expired |
| LeaderElection.VNode.IsLeader | provider/vnode.go:296-321 | true exactly for the non-empty holder of a lease at most 40 seconds old; this is the belief the protocol theorems are about |
| LeaderElection.VNode.CreateOrRetryUpdateLease | vnode_controller/vnode_controller.go:557-628 | the loop goes through another round after each whose read, create or renewal failed and after no other, five at most; it keeps the copy of the last round that read or created the lease, sends a create for a missing lease and a patch with a new instant for an own unexpired one and nothing else, and makes a creator the leader for the lease's duration; the copy is the one the protocol's own steps leave |
| LeaderElection.LoopFollowsElection | vnode_controller/vnode_controller.go:557-628 | however other controllers interleave, a loop that ends in the protocol ends with the copy the method computes |
| LeaderElection.ElectionKeepsServerLease | vnode_controller/vnode_controller.go:612-616 | the copy kept is the old one or one the server had by the answers, never the one being patched in |
| Codecs.NodeIdRecoveredIff | common/utils/utils.go:167-179 | any node ID, dots included, is recovered from its node name iff the environment has no dot |
| Codecs.ContainerKeyRecoveredIff | common/utils/utils.go:131-144 | pod key and any container name, slashes included, are recovered iff the pod key has exactly one slash |
| Codecs.BizKeyRecoveredIff | common/utils/utils.go:356-373 | biz name and version are recovered iff neither has a colon |
| Codecs.PodKeyRecoveredIff | common/utils/utils.go:115-129 | namespace and name are recovered by both splits iff neither has a slash, and only then does the key split at all |
| Codecs.SplitKeyIsKeyOfParts | common/utils/utils.go:329-342 | a key that splits is the key of its parts or a bare name |
| Codecs.DeletionKeyRecoveredIff | virtual_kubelet/node/pod.go:374-379 | UID and pod key, whatever it contains, are recovered by the last slash iff the UID has none |
| Strings.SplitJoin | common/utils/utils.go:131-144 | splitting undoes joining on separator-free parts |
| Strings.JoinSplit | common/utils/utils.go:131-144 | joining undoes splitting on every string |

## Left out

- WorkerGuarantees.NoLostUpdate: requests ask for instants after the zero time; what happens at the zero time is `RequestDuringProcessingSurvivesIff`.
- WorkerGuarantees.DueWorkCanBeTaken: says what the workers can do next, not that the Go scheduler lets them.
- StatusSync.StatusConverges: nobody else writes statuses (so the error status of virtual_kubelet/node/pod.go:108-131 is not a writer), a patch takes effect, if at all, before its handler goes on, and a key whose last failure was given up is excepted until a new status is stored. The conditions on reads and learnings are exact.
- ReconcileRuns.ReconcileConverges: provider calls are atomic, and a key that the node did not act on (while not the leader, a pod that ended and runs again, one that replaces another with the same mark for deletion), whose pod a pass dropped, or whose failure was given up is not covered from then on; `CarelessStepLosesPod` and `CarelessStepGoesWrong` show when that loses the pod. Besides the compared fields the source enqueues when a pod gets a node or its deletion time changes, which only adds work.
- PodController.PodController.EnqueuePodStatusUpdate: taking the known pod and storing into it is one step here, as in StatusSync (virtual_kubelet/node/pod.go:227, 266-274); that a pod forgotten and learned again in between keeps its old status is not modelled.
- StatusSync.PatchReachesTarget: a status is a flat map of fields, as every field of a pod status is a scalar or a list that a merge patch replaces as a whole.
- ForceDelete.OnlyMarkedPodsAreDeleted: speaks of the deletion queue's handler; the delete inside virtual_kubelet/node/pod.go:168-184 is not guarded by a UID and stays outside.
- Lease.AtMostOneLeads: the lease is not deleted; removal of a node (provider/vnode.go:85) and take-over are outside, and a failed patch takes effect, if at all, before its error is seen.
- Reconcile.PassConverges: provider calls are atomic and keys have exactly one slash, as every enqueued pod key has; the handler method itself covers all keys.
- PodController.PodController.CreateOrUpdatePod: the only provider error is the one the provider has, an update of a pod it does not store; whether the written error status arrives is not modelled.
- VPodProvider.VPodProvider.CreatePod: a call to the base is logged once, however often it is retried until it succeeds.
- ContainerStatuses.ReportedStateIff: case folding is modelled where it reaches the letters of the state names.
- Integer widths: instants and durations are unbounded, so saturation of Go durations is not modelled.
- Nil and empty slices or maps are one value, which the comparison library of the source tells apart.
- Rate limiter state and its forgetting, queue names, spans, logs, events, trackers, metrics.
- The status queue's and deletion queue's handlers appear as steps of protocols, not as methods, because API calls of others fall between their lines; PodController holds the two queues by their specification, which LinkedWorkQueue refines.
- CheckAndUpdatePodStatus: nothing calls it (vnode_controller/vnode_controller.go:398).
- CheckContainerStatusNeedSync and the selection of reports around it (provider/vpod_provider.go:98-153): they compare seconds of the minute, so which reports pass is arbitrary.
- Deleting dangling pods at start, the filters before pod events, node start, ready and exit channels, leader signals, liveness, node status building, workload delay, configuration: input and output or thin plumbing.
