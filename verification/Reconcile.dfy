/**
 One pass of the pod reconciler as values: the pods it knows with the version it last acted on,
 the provider's stored pods, and the queue of deletions. Provider calls are atomic.
 PodController shows that the handler computes exactly this.
 */
module Reconcile {
  import opened Wrappers
  import opened Strings
  import opened Codecs
  import opened PodModel
  import opened ContainerStatuses
  import opened StatusFold
  import WorkQueue

  const SECOND: WorkQueue.Duration := 1_000_000_000

  /** What the cache answers for the handler's key. */
  datatype Read = Cached(pod: Pod) | NotCached | CacheFailed

  datatype World = World(
    known: map<string, Option<Pod>>,          // the pod version last acted on, if any
    store: Pods,
    deletions: WorkQueue.State)

  /** A container that is neither terminated nor waiting makes a pod running. */
  predicate IsRunning(statuses: seq<ContainerStatus>) {
    exists i :: 0 <= i < |statuses| && statuses[i].state.terminated.None? && statuses[i].state.waiting.None?
  }

  predicate IsTerminal(pod: Pod) {
    pod.status.phase == Failed || pod.status.phase == Succeeded
  }

  /** Equal but for the resource version; statuses are compared too. */
  predicate EffectivelyEqual(a: Pod, b: Pod) {
    a.(resourceVersion := "") == b.(resourceVersion := "")
  }

  /** Equal in every field that may change after a pod has started. */
  predicate PodsEqual(a: Pod, b: Pod) {
    a.containers == b.containers && a.updatable == b.updatable
  }

  function Stored(store: Pods, pod: Pod): Pods {
    if KeyOf(pod) in store && PodsEqual(store[KeyOf(pod)], pod) then store else store[KeyOf(pod) := pod]
  }

  function SyncPod(w: World, pod: Pod, key: string, now: WorkQueue.Time, limiter: WorkQueue.Duration): World {
    var deletionKey := DeletionKey(key, pod.uid);
    if pod.deletion.Some? && !IsRunning(pod.status.containers) then
      w.(deletions := WorkQueue.Insert(w.deletions, deletionKey, false, None, now, limiter))
    else if !ActsOn(w, pod, key) then w
    else
      var acted := w.(known := w.known[key := Some(pod)]);
      if pod.deletion.Some? then
        acted.(store := w.store - {KeyOf(pod)},
               deletions := WorkQueue.Insert(w.deletions, deletionKey, false, Some(SECOND * pod.deletion.value), now,
                   limiter))
      else if IsTerminal(pod) then acted
      else acted.(store := Stored(w.store, pod))
  }

  /** The pod is known, and not in the version last acted on. */
  predicate ActsOn(w: World, pod: Pod, key: string) {
    key in w.known && !(w.known[key].Some? && EffectivelyEqual(w.known[key].value, pod))
  }

  function Pass(w: World, key: string, read: Read, now: WorkQueue.Time, limiter: WorkQueue.Duration): World {
    match SplitMetaNamespaceKey(key)
    case None => w
    case Some((namespace, name)) =>
      match read
      case CacheFailed => w
      case NotCached =>
        if PodKey(namespace, name) in w.store
        then w.(store := w.store - {PodKey(namespace, name)}, known := w.known - {key})
        else w
      case Cached(pod) => SyncPod(w, pod, key, now, limiter)
  }

  /** Whether a pass creates, updates or deletes a pod in the provider. */
  predicate CallsProvider(w: World, key: string, read: Read) {
    match SplitMetaNamespaceKey(key)
    case None => false
    case Some((namespace, name)) =>
      match read
      case CacheFailed => false
      case NotCached => PodKey(namespace, name) in w.store
      case Cached(pod) => SyncCallsProvider(w, pod, key)
  }

  predicate SyncCallsProvider(w: World, pod: Pod, key: string) {
    && !(pod.deletion.Some? && !IsRunning(pod.status.containers))
    && ActsOn(w, pod, key)
    && (pod.deletion.Some? || (!IsTerminal(pod) && !(KeyOf(pod) in w.store && PodsEqual(w.store[KeyOf(pod)], pod))))
  }

  /** An update of a pod that the provider stops having in the meantime fails. */
  predicate UpdateFails(store: Pods, pod: Pod, vanishes: bool) {
    vanishes && KeyOf(pod) in store && !PodsEqual(store[KeyOf(pod)], pod)
  }

  predicate SyncFails(w: World, pod: Pod, key: string, vanishes: bool) {
    SyncCallsProvider(w, pod, key) && pod.deletion.None? && UpdateFails(w.store, pod, vanishes)
  }

  /** What is written to the API server about a pod the provider failed on. */
  function FailedPod(pod: Pod, message: string): Pod {
    pod.(resourceVersion := "",
         status := pod.status.(phase := if pod.restartNever then Failed else Pending,
                               reason := "ProviderFailed", message := message))
  }

  /** A cached pod has the namespace and name it was asked for by. */
  predicate ReadsKey(key: string, read: Read) {
    read.Cached? ==> SplitMetaNamespaceKey(key) == Some((read.pod.namespace, read.pod.name))
  }

  // ---------------------------------------------------------------- runs

  datatype Step =
    | AddKnown(pod: Pod)
    | DeleteKnown(key: string)
    | Report(report: BizStatus)
    | DeleteStray(podKey: string)          // a report about a pod Kubernetes does not have
    | Handle(key: string, read: Read, now: WorkQueue.Time, limiter: WorkQueue.Duration)

  predicate Enabled(w: World, step: Step) {
    match step
    case AddKnown(pod) => OneSlash(KeyOf(pod)) && KeyOf(pod) !in w.known
    case DeleteKnown(_) => true
    case Report(_) => true
    case DeleteStray(podKey) => podKey !in w.known
    case Handle(key, read, _, _) => OneSlash(key) && ReadsKey(key, read)
  }

  ghost function Next(localIP: string, w: World, step: Step): World {
    match step
    case AddKnown(pod) => w.(known := w.known[KeyOf(pod) := None])
    case DeleteKnown(key) => w.(known := w.known - {key})
    case Report(report) => w.(store := SyncOne(localIP, w.store, report))
    case DeleteStray(podKey) => w.(store := w.store - {podKey})
    case Handle(key, read, now, limiter) => Pass(w, key, read, now, limiter)
  }

  ghost predicate Admissible(localIP: string, w: World, steps: seq<Step>)
    decreases |steps|
  {
    steps == [] || (Enabled(w, steps[0]) && Admissible(localIP, Next(localIP, w, steps[0]), steps[1..]))
  }

  ghost function Exec(localIP: string, w: World, steps: seq<Step>): World
    decreases |steps|
  {
    if steps == [] then w else Exec(localIP, Next(localIP, w, steps[0]), steps[1..])
  }

  const INITIAL := World(map[], map[], WorkQueue.EMPTY)

  // ---------------------------------------------------------------- what links the last acted version to the store

  /** The force deletion of the pod of this key and UID was scheduled. */
  predicate Scheduled(deletions: WorkQueue.State, key: string, uid: string) {
    WorkQueue.Listed(deletions.items, DeletionKey(key, uid)) || DeletionKey(key, uid) in deletions.processing
  }

  /**
   Acting on a live pod left an equal pod in the store; acting on a deleted one left none, and its
   force deletion scheduled.
   */
  ghost predicate LinkedAt(w: World, key: string, pod: Pod) {
    && KeyOf(pod) == key
    && (pod.deletion.None? && !IsTerminal(pod) ==> key in w.store && PodsEqual(w.store[key], pod))
    && (pod.deletion.Some? ==> key !in w.store && Scheduled(w.deletions, key, pod.uid))
  }

  ghost predicate Linked(w: World) {
    && WorkQueue.Inv(w.deletions)
    && forall key :: key in w.known && w.known[key].Some? ==> LinkedAt(w, key, w.known[key].value)
  }

  /** A deletion scheduled is scheduled, and the others are as before. */
  lemma InsertSchedules(q: WorkQueue.State, queued: string, delay: Option<WorkQueue.Duration>, now: WorkQueue.Time,
                        limiter: WorkQueue.Duration)
    requires WorkQueue.Inv(q)
    ensures var q' := WorkQueue.Insert(q, queued, false, delay, now, limiter);
      && WorkQueue.Inv(q')
      && forall k :: WorkQueue.Listed(q'.items, k) || k in q'.processing <==>
           k == queued || WorkQueue.Listed(q.items, k) || k in q.processing
  {
    WorkQueue.InsertByKey(q, queued, false, delay, now, limiter);
    hide WorkQueue.Insert, WorkQueue.Find, WorkQueue.Inv;
  }

  /** Whether a pass is about a pod marked for deletion that no longer runs or that it acts on. */
  predicate Schedules(w: World, key: string, read: Read) {
    && read.Cached? && read.pod.deletion.Some?
    && (ActsOn(w, read.pod, key) || !IsRunning(read.pod.status.containers))
  }

  /** Such a pass schedules that pod's deletion; every other deletion is as before. */
  lemma PassSchedules(w: World, key: string, read: Read, now: WorkQueue.Time, limiter: WorkQueue.Duration)
    requires WorkQueue.Inv(w.deletions) && OneSlash(key) && ReadsKey(key, read)
    ensures var w' := Pass(w, key, read, now, limiter);
      && WorkQueue.Inv(w'.deletions)
      && forall k, uid :: Scheduled(w'.deletions, k, uid) <==>
           || Scheduled(w.deletions, k, uid)
           || (Schedules(w, key, read) && DeletionKey(k, uid) == DeletionKey(key, read.pod.uid))
  {
    hide OneSlash, PodKey, SplitMetaNamespaceKey, IsRunning, WorkQueue.Insert, WorkQueue.Inv, WorkQueue.Find,
      DeletionKey, EffectivelyEqual, Stored;
    PartsOfKey(key);
    if read.Cached? {
      var queued := DeletionKey(key, read.pod.uid);
      InsertSchedules(w.deletions, queued, None, now, limiter);
      if read.pod.deletion.Some? {
        InsertSchedules(w.deletions, queued, Some(SECOND * read.pod.deletion.value), now, limiter);
      }
    }
  }

  lemma PartsOfKey(key: string)
    requires OneSlash(key)
    ensures SplitMetaNamespaceKey(key).Some?
    ensures var (namespace, name) := SplitMetaNamespaceKey(key).value; PodKey(namespace, name) == key
  {
    SplitKeyIsKeyOfParts(key);
    SplitFree(key, '/');
    var parts := Split(key, '/');
    JoinSplit(key, '/');
    assert Join(parts, '/') == parts[0] + ['/'] + parts[1];
  }

  lemma HandleKeepsLinked(w: World, key: string, read: Read, now: WorkQueue.Time, limiter: WorkQueue.Duration)
    requires Linked(w) && OneSlash(key) && ReadsKey(key, read)
    ensures Linked(Pass(w, key, read, now, limiter))
  {
    hide Split, OneSlash, PodKey, SplitMetaNamespaceKey, IsRunning, WorkQueue.Insert, WorkQueue.Inv, Scheduled;
    PartsOfKey(key);
    PassSchedules(w, key, read, now, limiter);
  }

  lemma StepKeepsLinked(localIP: string, w: World, step: Step)
    requires Linked(w) && Enabled(w, step)
    ensures Linked(Next(localIP, w, step))
  {
    hide Split, OneSlash, PodKey, SplitMetaNamespaceKey, PodStatusAfter, Pass, WorkQueue.Inv, Scheduled;
    match step {
      case Handle(key, read, now, limiter) => HandleKeepsLinked(w, key, read, now, limiter);
      case _ =>
    }
  }

  lemma {:induction false} AlwaysLinked(localIP: string, w: World, steps: seq<Step>)
    requires Linked(w) && Admissible(localIP, w, steps)
    ensures Linked(Exec(localIP, w, steps))
    decreases |steps|
  {
    hide Linked;
    if steps != [] {
      StepKeepsLinked(localIP, w, steps[0]);
      AlwaysLinked(localIP, Next(localIP, w, steps[0]), steps[1..]);
    }
  }

  // ---------------------------------------------------------------- main results

  /**
   Reconcile convergence: in every run, one pass on a key that reads the cache leaves no stored pod
   if the cache has none or has one that is deleted while running, and a pod with the same containers
   and the same updatable fields if the cached one is known, live and neither Failed nor Succeeded,
   also when the pass ends early because nothing changed. A known pod marked for deletion, and one
   that no longer runs, has its force deletion scheduled.
   */
  lemma PassConverges(localIP: string, steps: seq<Step>, key: string, read: Read,
                      now: WorkQueue.Time, limiter: WorkQueue.Duration)
    requires Admissible(localIP, INITIAL, steps) && OneSlash(key) && ReadsKey(key, read)
    ensures read.Cached? && read.pod.deletion.Some? ==>
      key in Exec(localIP, INITIAL, steps).known || !IsRunning(read.pod.status.containers) ==>
        var q := Pass(Exec(localIP, INITIAL, steps), key, read, now, limiter).deletions;
        var queued := DeletionKey(key, read.pod.uid);
        WorkQueue.Listed(q.items, queued) || queued in q.processing
    ensures var w := Exec(localIP, INITIAL, steps); var store := Pass(w, key, read, now, limiter).store;
      && (read.NotCached? ==> key !in store)
      && (read.Cached? && key in w.known && read.pod.deletion.Some? && IsRunning(read.pod.status.containers) ==>
            key !in store)
      && (read.Cached? && key in w.known && read.pod.deletion.None? && read.pod.status.phase !in {Failed, Succeeded} ==>
            key in store && store[key].containers == read.pod.containers
            && store[key].updatable == read.pod.updatable)
      && (forall other :: other != key ==> (other in store <==> other in w.store))
      && (forall other :: other != key && other in store && other in w.store ==> store[other] == w.store[other])
  {
    hide Split, OneSlash, PodKey, SplitMetaNamespaceKey, IsRunning, WorkQueue.Insert, WorkQueue.Find, DeletionKey;
    AlwaysLinked(localIP, INITIAL, steps);
    PartsOfKey(key);
    PassSchedules(Exec(localIP, INITIAL, steps), key, read, now, limiter);
  }

  /**
   A pod marked for deletion gets its force deletion scheduled under its own UID: at once when it
   no longer runs, after its grace period when the pass deletes it in the provider. A deletion that
   already waits is never postponed.
   */
  lemma DeletionIsScheduled(w: World, pod: Pod, key: string, now: WorkQueue.Time, limiter: WorkQueue.Duration)
    requires WorkQueue.Inv(w.deletions) && OneSlash(key) && ReadsKey(key, Cached(pod)) && pod.deletion.Some?
    requires !IsRunning(pod.status.containers) || ActsOn(w, pod, key)
    ensures var q, q' := w.deletions, Pass(w, key, Cached(pod), now, limiter).deletions;
      var queued := DeletionKey(key, pod.uid);
      var due := now + (if IsRunning(pod.status.containers) then SECOND * pod.deletion.value else 0);
      && WorkQueue.Inv(q') && WorkQueue.OthersUnchanged(q, q', queued)
      && (queued in q.processing ==>
            && queued in q'.processing && !q'.processing[queued].forget
            && (due != WorkQueue.ZERO_TIME && q.processing[queued].redirtiedAt == WorkQueue.ZERO_TIME ==>
                  q'.processing[queued].redirtiedAt == due))
      && (queued !in q.processing ==>
            && WorkQueue.Listed(q'.items, queued)
            && var planned := WorkQueue.Find(q'.items, queued).value.planned;
               planned <= due && (!WorkQueue.Listed(q.items, queued) ==> planned == due))
  {
    hide Split, OneSlash, PodKey, IsRunning, WorkQueue.Insert, WorkQueue.Inv, WorkQueue.Find, DeletionKey;
    PartsOfKey(key);
    var delay := if IsRunning(pod.status.containers) then Some(SECOND * pod.deletion.value) else None;
    WorkQueue.InsertByKey(w.deletions, DeletionKey(key, pod.uid), false, delay, now, limiter);
  }

  /** The same answer of the cache, but for the resource version of the pod. */
  predicate SameBut(read: Read, again: Read) {
    read == again || (read.Cached? && again.Cached? &&
      again.pod.(resourceVersion := read.pod.resourceVersion) == read.pod)
  }

  /** A step of anything but this key, or the same pass again. */
  predicate LeavesAlone(step: Step, key: string, read: Read) {
    match step
    case AddKnown(pod) => KeyOf(pod) != key
    case DeleteKnown(other) => other != key
    case Report(_) => true
    case DeleteStray(other) => other != key
    case Handle(other, again, _, _) => other != key || SameBut(read, again)
  }

  /** What the first pass established about its key: the version acted on, or no stored pod. */
  ghost predicate Settled(w: World, key: string, read: Read) {
    match read
    case CacheFailed => true
    case NotCached => key !in w.store
    case Cached(pod) =>
      (pod.deletion.Some? && !IsRunning(pod.status.containers)) || !ActsOn(w, pod, key)
  }

  lemma PassSettles(w: World, key: string, read: Read, now: WorkQueue.Time, limiter: WorkQueue.Duration)
    requires OneSlash(key) && ReadsKey(key, read)
    ensures Settled(Pass(w, key, read, now, limiter), key, read)
  {
    hide Split, OneSlash, PodKey, IsRunning, WorkQueue.Insert;
    PartsOfKey(key);
  }

  lemma SettledIsSilent(w: World, key: string, read: Read)
    requires OneSlash(key) && ReadsKey(key, read) && Settled(w, key, read)
    ensures !CallsProvider(w, key, read)
  {
    hide Split, OneSlash, PodKey, IsRunning;
    PartsOfKey(key);
  }

  lemma StepStaysSettled(localIP: string, w: World, step: Step, key: string, read: Read)
    requires OneSlash(key) && ReadsKey(key, read) && Settled(w, key, read)
    requires Enabled(w, step) && LeavesAlone(step, key, read)
    ensures Settled(Next(localIP, w, step), key, read)
  {
    hide Split, OneSlash, PodKey, SplitMetaNamespaceKey, IsRunning, WorkQueue.Insert, PodStatusAfter;
    if step.Handle? {
      PartsOfKey(step.key);
    }
  }

  lemma {:induction false} RunStaysSettled(localIP: string, w: World, steps: seq<Step>, key: string, read: Read)
    requires OneSlash(key) && ReadsKey(key, read) && Settled(w, key, read)
    requires Admissible(localIP, w, steps) && forall i :: 0 <= i < |steps| ==> LeavesAlone(steps[i], key, read)
    ensures Settled(Exec(localIP, w, steps), key, read)
    decreases |steps|
  {
    hide Settled, Enabled, Next, LeavesAlone, ReadsKey, OneSlash;
    if steps != [] {
      StepStaysSettled(localIP, w, steps[0], key, read);
      RunStaysSettled(localIP, Next(localIP, w, steps[0]), steps[1..], key, read);
    }
  }

  /**
   Reconcile idempotence: after a pass, a second one with the same cache, or with the pod in another
   resource version only, makes no provider call and changes neither the store nor what is known,
   even when passes on other keys, reports about any pod and changes to other known pods come in
   between.
   */
  lemma SecondPassIsSilent(localIP: string, w: World, key: string, read: Read, again: Read, between: seq<Step>,
                           now: WorkQueue.Time, later: WorkQueue.Time, limiter: WorkQueue.Duration)
    requires OneSlash(key) && ReadsKey(key, read) && SameBut(read, again)
    requires var w1 := Pass(w, key, read, now, limiter);
      Admissible(localIP, w1, between) && forall i :: 0 <= i < |between| ==> LeavesAlone(between[i], key, read)
    ensures var w2 := Exec(localIP, Pass(w, key, read, now, limiter), between);
      && !CallsProvider(w2, key, again)
      && Pass(w2, key, again, later, limiter).store == w2.store
      && Pass(w2, key, again, later, limiter).known == w2.known
  {
    hide Split, OneSlash, IsRunning, WorkQueue.Insert, Exec, Admissible;
    PassSettles(w, key, read, now, limiter);
    RunStaysSettled(localIP, Pass(w, key, read, now, limiter), between, key, read);
    SettledIsSilent(Exec(localIP, Pass(w, key, read, now, limiter), between), key, again);
    PartsOfKey(key);
  }
}
