/**
 Force deletion of pods that were marked for deletion: the sync handler enqueues "pod key/UID", a
 queue handler reads the pod and deletes it under a UID precondition. Reads may return any past
 version of a pod, pods may vanish and be created again under the same name, and everything
 interleaves.
 */
module ForceDelete {
  import opened Wrappers
  import opened WorkQueue
  import opened Strings
  import opened Codecs

  type Uid = string

  datatype Pod = Pod(uid: Uid, deleting: bool, running: bool)

  datatype Phase = Started | Checked | Done(failed: bool)

  /** What a read returns: some version the pod of that name has had, nothing, or an error. */
  datatype Read = Seen(pod: Pod) | Missing | Failing

  datatype Outcome = Answered | Lost | Refused

  datatype System = System(
    api: map<Key, Pod>,
    past: set<(Key, Pod)>,            // every version any pod has had
    given: map<Uid, Key>,             // the pod each UID was given to
    marked: set<Uid>,                 // pods that were marked for deletion
    queue: State,
    handlers: map<Key, Phase>,
    removed: seq<(Key, Pod)>)         // what queue handlers deleted

  datatype Step =
    | Create(namespace: string, name: string, uid: Uid, running: bool)
    | Mark(key: Key)
    | SetRunning(key: Key, running: bool)
    | Vanish(key: Key)
    | Schedule(key: Key, pod: Pod, grace: nat, now: Time, limiter: Duration)
    | ForgetDeletion(key: Key, uid: Uid)
    | Take(now: Time)
    | Get(queued: Key, read: Read)
    | Delete(queued: Key, outcome: Outcome)
    | Finish(queued: Key, verdict: Verdict, measured: Time, now: Time, limiter: Duration)

  const INITIAL := System(map[], {}, map[], {}, EMPTY, map[], [])

  /** The delay of a deletion: none for a pod that no longer runs, its grace period otherwise. */
  function DelayOf(pod: Pod, grace: nat): Option<Duration> {
    if pod.running then Some(grace) else None
  }

  function PodKeyOf(queued: Key): Key
    requires !Free(queued, '/')
  {
    UidAndPodKey(queued).1
  }

  function UidOf(queued: Key): Uid
    requires !Free(queued, '/')
  {
    UidAndPodKey(queued).0
  }

  /** The pod a queued key names is no longer there. */
  predicate Gone(api: map<Key, Pod>, queued: Key)
    requires !Free(queued, '/')
  {
    PodKeyOf(queued) !in api || api[PodKeyOf(queued)].uid != UidOf(queued)
  }

  predicate Enabled(s: System, step: Step) {
    match step
    case Create(namespace, name, uid, _) =>
      && Free(namespace, '/') && Free(name, '/') && Free(uid, '/')
      && PodKey(namespace, name) !in s.api
      && uid !in s.given
    case Mark(key) => key in s.api
    case SetRunning(key, _) => key in s.api
    case Vanish(key) => key in s.api
    case Schedule(key, pod, _, now, _) => (key, pod) in s.past && pod.deleting && now > ZERO_TIME
    case ForgetDeletion(key, uid) => uid in s.given && s.given[uid] == key && (key in s.api ==> s.api[key].uid != uid)
    case Take(now) => Due(s.queue, now)
    case Get(queued, read) =>
      && queued in s.handlers && s.handlers[queued].Started?
      && !Free(queued, '/')
      && (read.Seen? ==> (PodKeyOf(queued), read.pod) in s.past)
    case Delete(queued, _) => queued in s.handlers && s.handlers[queued].Checked? && !Free(queued, '/')
    case Finish(queued, _, _, _, _) => queued in s.handlers && s.handlers[queued].Done? && queued in s.queue.processing
  }

  function SetPod(s: System, key: Key, pod: Pod): System {
    s.(api := s.api[key := pod], past := s.past + {(key, pod)})
  }

  /** How a handler goes on after its read. */
  function AfterGet(queued: Key, read: Read): Phase
    requires !Free(queued, '/')
  {
    if SplitMetaNamespaceKey(PodKeyOf(queued)).None? then Done(false)
    else match read
      case Missing => Done(false)
      case Failing => Done(true)
      case Seen(pod) => if pod.uid != UidOf(queued) then Done(false) else Checked
  }

  function Next(s: System, step: Step): System
    requires Enabled(s, step)
  {
    match step
    case Create(namespace, name, uid, running) =>
      SetPod(s, PodKey(namespace, name), Pod(uid, false, running)).(given := s.given[uid := PodKey(namespace, name)])
    case Mark(key) =>
      SetPod(s, key, s.api[key].(deleting := true)).(marked := s.marked + {s.api[key].uid})
    case SetRunning(key, running) => SetPod(s, key, s.api[key].(running := running))
    case Vanish(key) => s.(api := s.api - {key})
    case Schedule(key, pod, grace, now, limiter) =>
      s.(queue := Insert(s.queue, DeletionKey(key, pod.uid), false, DelayOf(pod, grace), now, limiter))
    case ForgetDeletion(key, uid) => s.(queue := Forget(s.queue, DeletionKey(key, uid)))
    case Take(_) =>
      s.(queue := WorkQueue.Take(s.queue), handlers := s.handlers[s.queue.items[0].key := Started])
    case Get(queued, read) => s.(handlers := s.handlers[queued := AfterGet(queued, read)])
    case Delete(queued, outcome) =>
      var key := PodKeyOf(queued);
      if outcome.Refused? || Gone(s.api, queued) then
        s.(handlers := s.handlers[queued := Done(outcome.Refused?)])
      else
        s.(api := s.api - {key}, removed := s.removed + [(key, s.api[key])],
           handlers := s.handlers[queued := Done(outcome.Lost?)])
    case Finish(queued, verdict, measured, now, limiter) =>
      s.(queue := Complete(s.queue, queued, s.handlers[queued].failed, verdict, measured, now, limiter),
         handlers := s.handlers - {queued})
  }

  predicate Admissible(s: System, steps: seq<Step>)
    decreases |steps|
  {
    steps == [] || (Enabled(s, steps[0]) && Admissible(Next(s, steps[0]), steps[1..]))
  }

  function Exec(s: System, steps: seq<Step>): System
    requires Admissible(s, steps)
    decreases |steps|
  {
    if steps == [] then s else Exec(Next(s, steps[0]), steps[1..])
  }

  // ---------------------------------------------------------------- the invariant

  /** Each version of a pod has the UID that was given to it; what is marked is marked in the API server. */
  ghost predicate PastIsSound(s: System) {
    && (forall e :: e in s.past ==> e.1.uid in s.given && s.given[e.1.uid] == e.0)
    && (forall e :: e in s.past && e.1.deleting ==> e.1.uid in s.marked)
    && (forall u :: u in s.given ==> Free(u, '/') && OneSlash(s.given[u]))
    && s.marked <= s.given.Keys
    && (forall k :: k in s.api ==> (k, s.api[k]) in s.past)
    && (forall k :: k in s.api && s.api[k].uid in s.marked ==> s.api[k].deleting)
  }

  /** The key of a marked pod, from which pod key and UID are recovered. */
  predicate NamesMarked(given: map<Uid, Key>, marked: set<Uid>, queued: Key) {
    && !Free(queued, '/')
    && UidOf(queued) in marked && UidOf(queued) in given && given[UidOf(queued)] == PodKeyOf(queued)
  }

  ghost predicate QueueIsSound(s: System) {
    && Inv(s.queue)
    && (forall k :: Listed(s.queue.items, k) || k in s.queue.processing ==> NamesMarked(s.given, s.marked, k))
    && (forall k :: k in s.handlers <==> k in s.queue.processing)
  }

  ghost predicate RemovedWereMarked(s: System) {
    forall e :: e in s.removed ==> e.1.deleting && e.1.uid in s.marked
  }

  /** Only what is gone is forgotten. */
  ghost predicate ForgottenAreGone(s: System) {
    forall k :: k in s.queue.processing && s.queue.processing[k].forget ==> !Free(k, '/') && Gone(s.api, k)
  }

  ghost predicate Invariant(s: System) {
    PastIsSound(s) && QueueIsSound(s) && RemovedWereMarked(s) && ForgottenAreGone(s)
  }

  /** What only ever grows. */
  ghost predicate Grows(s: System, s': System) {
    && s.marked <= s'.marked
    && (forall u :: u in s.given ==> u in s'.given && s'.given[u] == s.given[u])
  }

  lemma PodKeyHasOneSlash(namespace: string, name: string)
    requires Free(namespace, '/') && Free(name, '/')
    ensures OneSlash(PodKey(namespace, name))
  {
    SplitAppend(namespace, name, '/');
    SplitFree(namespace, '/');
    SplitFree(name, '/');
    assert PodKey(namespace, name) == namespace + ['/'] + name;
  }

  /** A new version of a pod that has the UID given to its key, and is deleting if that UID is marked. */
  lemma NewVersionIsSound(s: System, s': System, key: Key, pod: Pod)
    requires PastIsSound(s) && Grows(s, s')
    requires s'.api == s.api[key := pod] && s'.past == s.past + {(key, pod)}
    requires pod.uid in s'.given && s'.given[pod.uid] == key && s'.given.Keys == s.given.Keys + {pod.uid}
    requires Free(pod.uid, '/') && OneSlash(key)
    requires s'.marked == if pod.deleting then s.marked + {pod.uid} else s.marked
    requires pod.uid in s.marked ==> pod.deleting
    ensures PastIsSound(s')
  {
    hide OneSlash, Free;
  }

  lemma StepPastIsSound(s: System, step: Step)
    requires PastIsSound(s) && Enabled(s, step)
    ensures PastIsSound(Next(s, step)) && Grows(s, Next(s, step))
  {
    hide OneSlash, Free, Insert, Forget, Complete, WorkQueue.Take, DeletionKey, PodKey, UidAndPodKey, AfterGet, Gone;
    var s' := Next(s, step);
    match step {
      case Create(namespace, name, uid, running) =>
        PodKeyHasOneSlash(namespace, name);
        NewVersionIsSound(s, s', PodKey(namespace, name), Pod(uid, false, running));
      case Mark(key) => NewVersionIsSound(s, s', key, s.api[key].(deleting := true));
      case SetRunning(key, running) =>
        assert (key, s.api[key]) in s.past;
        NewVersionIsSound(s, s', key, s.api[key].(running := running));
      case _ => NoNewVersionIsSound(s, s');
    }
  }

  lemma NoNewVersionIsSound(s: System, s': System)
    requires PastIsSound(s) && s'.past == s.past && s'.given == s.given && s'.marked == s.marked
    requires forall k :: k in s'.api ==> k in s.api && s'.api[k] == s.api[k]
    ensures PastIsSound(s') && Grows(s, s')
  {
    hide OneSlash, Free;
  }

  lemma ScheduledNamesMarked(s: System, key: Key, pod: Pod)
    requires PastIsSound(s) && (key, pod) in s.past && pod.deleting
    ensures NamesMarked(s.given, s.marked, DeletionKey(key, pod.uid))
  {
    hide Free, OneSlash, DeletionKey, UidAndPodKey;
    DeletionKeyRecoveredIff(key, pod.uid);
  }

  lemma ScheduleIsSound(s: System, key: Key, pod: Pod, grace: nat, now: Time, limiter: Duration)
    requires PastIsSound(s) && QueueIsSound(s) && Enabled(s, Schedule(key, pod, grace, now, limiter))
    ensures QueueIsSound(Next(s, Schedule(key, pod, grace, now, limiter)))
  {
    hide Inv, Find, Insert, DeletionKey, UidAndPodKey, OneSlash, Free, PastIsSound, NamesMarked;
    ScheduledNamesMarked(s, key, pod);
    InsertByKey(s.queue, DeletionKey(key, pod.uid), false, DelayOf(pod, grace), now, limiter);
  }

  lemma ForgetAndTakeAreSound(s: System, step: Step)
    requires QueueIsSound(s) && Enabled(s, step) && (step.ForgetDeletion? || step.Take?)
    ensures QueueIsSound(Next(s, step))
  {
    hide Inv, Find, Forget, WorkQueue.Take, DeletionKey, UidAndPodKey, OneSlash, Free, NamesMarked;
    if step.Take? {
      TakeByKey(s.queue);
    } else {
      ForgetByKey(s.queue, DeletionKey(step.key, step.uid));
    }
  }

  lemma FinishIsSound(s: System, queued: Key, verdict: Verdict, measured: Time, now: Time, limiter: Duration)
    requires QueueIsSound(s) && Enabled(s, Finish(queued, verdict, measured, now, limiter))
    ensures QueueIsSound(Next(s, Finish(queued, verdict, measured, now, limiter)))
  {
    hide Inv, Find, Complete, UidAndPodKey, OneSlash, Free, NamesMarked;
    CompleteByKey(s.queue, queued, s.handlers[queued].failed, verdict, measured, now, limiter);
  }

  lemma StepQueueIsSound(s: System, step: Step)
    requires PastIsSound(s) && QueueIsSound(s) && Enabled(s, step) && Grows(s, Next(s, step))
    ensures QueueIsSound(Next(s, step))
  {
    hide Inv, Find, Insert, Forget, Complete, WorkQueue.Take, DeletionKey, UidAndPodKey, OneSlash, Free, PastIsSound,
        AfterGet;
    match step {
      case Schedule(key, pod, grace, now, limiter) => ScheduleIsSound(s, key, pod, grace, now, limiter);
      case ForgetDeletion(_, _) => ForgetAndTakeAreSound(s, step);
      case Take(_) => ForgetAndTakeAreSound(s, step);
      case Finish(queued, verdict, measured, now, limiter) => FinishIsSound(s, queued, verdict, measured, now, limiter);
      case _ =>
    }
  }

  /** A pod whose UID a queued key names can only be a pod marked for deletion. */
  lemma StepRemovesMarked(s: System, step: Step)
    requires Invariant(s) && Enabled(s, step)
    ensures RemovedWereMarked(Next(s, step))
    ensures !step.Vanish? ==> forall k :: k in s.api && !s.api[k].deleting ==>
              k in Next(s, step).api && Next(s, step).api[k].uid == s.api[k].uid
    ensures OfHandler(step) ==> forall k :: k in s.api && !s.api[k].deleting ==>
              k in Next(s, step).api && Next(s, step).api[k] == s.api[k]
  {
    hide Inv, Find, Insert, Forget, Complete, WorkQueue.Take, DeletionKey, UidAndPodKey, OneSlash, Free, AfterGet,
        PodKey;
    if step.Delete? {
      assert NamesMarked(s.given, s.marked, step.queued);
    }
  }

  /** Once gone, a pod never comes back: its UID is not given again. */
  lemma StaysGone(s: System, step: Step, k: Key)
    requires PastIsSound(s) && NamesMarked(s.given, s.marked, k) && Enabled(s, step) && Gone(s.api, k)
    ensures Gone(Next(s, step).api, k)
  {
    hide Insert, Forget, Complete, WorkQueue.Take, DeletionKey, UidAndPodKey, OneSlash, Free, AfterGet, PodKey;
  }

  /** What a queue step newly marks as forgotten is gone. */
  lemma QueueStepForgets(s: System, step: Step, k: Key)
    requires PastIsSound(s) && Inv(s.queue) && Enabled(s, step)
    requires k in s.queue.processing && s.queue.processing[k].forget ==> !Free(k, '/') && Gone(s.api, k)
    requires k in Next(s, step).queue.processing && Next(s, step).queue.processing[k].forget
    ensures k in s.queue.processing && !Free(k, '/') && Gone(s.api, k)
  {
    hide Inv, Find, Insert, Forget, Complete, WorkQueue.Take, DeletionKey, UidAndPodKey, OneSlash, Free, AfterGet,
      PodKey;
    match step {
      case Schedule(key, pod, grace, now, limiter) =>
        InsertByKey(s.queue, DeletionKey(key, pod.uid), false, DelayOf(pod, grace), now, limiter);
      case ForgetDeletion(key, uid) =>
        DeletionKeyRecoveredIff(key, uid);
        ForgetByKey(s.queue, DeletionKey(key, uid));
      case Take(_) =>
        TakeByKey(s.queue);
        WaitingIsUnmarked(s.queue);
      case Finish(queued, verdict, measured, now, limiter) =>
        CompleteByKey(s.queue, queued, s.handlers[queued].failed, verdict, measured, now, limiter);
      case _ =>
    }
  }

  lemma StepForgottenAreGone(s: System, step: Step)
    requires Invariant(s) && Enabled(s, step) && PastIsSound(Next(s, step)) && QueueIsSound(Next(s, step))
    ensures ForgottenAreGone(Next(s, step))
  {
    hide Next, Enabled, PastIsSound, RemovedWereMarked, Inv, Find, UidAndPodKey, Free, OneSlash;
    var s' := Next(s, step);
    forall k | k in s'.queue.processing && s'.queue.processing[k].forget ensures !Free(k, '/') && Gone(s'.api, k) {
      QueueStepForgets(s, step, k);
      assert NamesMarked(s.given, s.marked, k);
      StaysGone(s, step, k);
    }
  }

  predicate OfHandler(step: Step) {
    step.Take? || step.Get? || step.Delete? || step.Finish?
  }

  lemma StepInvariant(s: System, step: Step)
    requires Invariant(s) && Enabled(s, step)
    ensures Invariant(Next(s, step))
  {
    hide PastIsSound, QueueIsSound, RemovedWereMarked, ForgottenAreGone, Next, Enabled;
    StepPastIsSound(s, step);
    StepQueueIsSound(s, step);
    StepRemovesMarked(s, step);
    StepForgottenAreGone(s, step);
  }

  lemma {:induction false} AlwaysInvariant(s: System, steps: seq<Step>)
    requires Invariant(s) && Admissible(s, steps)
    ensures Invariant(Exec(s, steps))
    decreases |steps|
  {
    hide Invariant;
    if steps != [] {
      StepInvariant(s, steps[0]);
      AlwaysInvariant(Next(s, steps[0]), steps[1..]);
    }
  }

  // ---------------------------------------------------------------- main results

  /**
   UID-safe force delete: in every run, with stale reads and recreated pods, each pod that a queue
   handler deleted had itself been marked for deletion.
   */
  lemma OnlyMarkedPodsAreDeleted(steps: seq<Step>, i: nat)
    requires Admissible(INITIAL, steps) && i < |Exec(INITIAL, steps).removed|
    ensures var s := Exec(INITIAL, steps); var (key, pod) := s.removed[i];
      pod.deleting && pod.uid in s.marked
  {
    AlwaysInvariant(INITIAL, steps);
  }

  /** No step of a queue handler touches a pod that is not marked for deletion. */
  lemma UnmarkedPodSurvivesHandlers(steps: seq<Step>, step: Step, key: Key)
    requires Admissible(INITIAL, steps) && Enabled(Exec(INITIAL, steps), step) && OfHandler(step)
    requires var s := Exec(INITIAL, steps); key in s.api && !s.api[key].deleting
    ensures var s := Exec(INITIAL, steps); key in Next(s, step).api && Next(s, step).api[key] == s.api[key]
  {
    hide *;
    assert Invariant(INITIAL) by { InitialInvariant(); }
    AlwaysInvariant(INITIAL, steps);
    StepRemovesMarked(Exec(INITIAL, steps), step);
  }

  lemma InitialInvariant()
    ensures Invariant(INITIAL)
  {
  }

  lemma NamesMarkedParts(s: System, queued: Key)
    requires PastIsSound(s) && NamesMarked(s.given, s.marked, queued)
    ensures var (uid, podKey) := UidAndPodKey(queued);
      && queued == DeletionKey(podKey, uid)
      && SplitMetaNamespaceKey(podKey).Some?
      && var (namespace, name) := SplitMetaNamespaceKey(podKey).value;
         podKey == PodKey(namespace, name) && Free(namespace, '/') && Free(name, '/')
  {
    hide PastIsSound, Split;
    var (uid, podKey) := UidAndPodKey(queued);
    assert OneSlash(podKey) by { GivenHasOneSlash(s, uid); }
    SplitKeyIsKeyOfParts(podKey);
    SplitFree(podKey, '/');
    PartsAreFree(podKey, '/');
  }

  lemma GivenHasOneSlash(s: System, uid: Uid)
    requires PastIsSound(s) && uid in s.given
    ensures OneSlash(s.given[uid])
  {
  }

  /**
   Every key that waits or is handled names a marked pod, has a slash, and is taken apart into
   exactly the namespace, name and UID it was built from.
   */
  lemma QueuedKeysNameMarkedPods(steps: seq<Step>, queued: Key)
    requires Admissible(INITIAL, steps)
    requires var s := Exec(INITIAL, steps); Listed(s.queue.items, queued) || queued in s.queue.processing
    ensures !Free(queued, '/')
    ensures var s := Exec(INITIAL, steps); var (uid, podKey) := UidAndPodKey(queued);
      && uid in s.marked && uid in s.given && s.given[uid] == podKey
      && queued == DeletionKey(podKey, uid)
      && SplitMetaNamespaceKey(podKey).Some?
      && var (namespace, name) := SplitMetaNamespaceKey(podKey).value;
         podKey == PodKey(namespace, name) && Free(namespace, '/') && Free(name, '/')
  {
    hide PastIsSound, Split, Inv, Find, Exec, Admissible, DeletionKey, SplitMetaNamespaceKey;
    assert Invariant(INITIAL) by { InitialInvariant(); }
    AlwaysInvariant(INITIAL, steps);
    assert NamesMarked(Exec(INITIAL, steps).given, Exec(INITIAL, steps).marked, queued);
    NamesMarkedParts(Exec(INITIAL, steps), queued);
  }

  /** One handler pass whose calls are answered deletes the marked pod its key names. */
  lemma HandlerPassDeletes(steps: seq<Step>, queued: Key, verdict: Verdict, measured: Time, now: Time,
      limiter: Duration)
    requires Admissible(INITIAL, steps)
    requires var s := Exec(INITIAL, steps);
      && queued in s.handlers && s.handlers[queued] == Started && !Free(queued, '/')
      && PodKeyOf(queued) in s.api && s.api[PodKeyOf(queued)].uid == UidOf(queued)
    ensures var s := Exec(INITIAL, steps); var key := PodKeyOf(queued);
      var get, del, end := Get(queued, Seen(s.api[key])), Delete(queued, Answered),
          Finish(queued, verdict, measured, now, limiter);
      && Enabled(s, get) && Enabled(Next(s, get), del) && Enabled(Next(Next(s, get), del), end)
      && Next(Next(Next(s, get), del), end).api == s.api - {key}
      && Next(Next(Next(s, get), del), end).removed == s.removed + [(key, s.api[key])]
  {
    hide *;
    assert Invariant(INITIAL) by { InitialInvariant(); }
    AlwaysInvariant(INITIAL, steps);
    PassDeletes(Exec(INITIAL, steps), queued, verdict, measured, now, limiter);
  }

  lemma HandledIsNamed(s: System, queued: Key)
    requires Invariant(s) && queued in s.handlers
    ensures !Free(queued, '/') && SplitMetaNamespaceKey(PodKeyOf(queued)).Some? && queued in s.queue.processing
    ensures PodKeyOf(queued) in s.api ==> (PodKeyOf(queued), s.api[PodKeyOf(queued)]) in s.past
  {
    hide Inv, Find, UidAndPodKey, SplitMetaNamespaceKey, Free, OneSlash;
    NamesMarkedParts(s, queued);
  }

  lemma PassDeletes(s: System, queued: Key, verdict: Verdict, measured: Time, now: Time, limiter: Duration)
    requires Invariant(s)
    requires queued in s.handlers && s.handlers[queued] == Started && !Free(queued, '/')
    requires PodKeyOf(queued) in s.api && s.api[PodKeyOf(queued)].uid == UidOf(queued)
    ensures var key := PodKeyOf(queued);
      var get, del, end := Get(queued, Seen(s.api[key])), Delete(queued, Answered),
          Finish(queued, verdict, measured, now, limiter);
      && Enabled(s, get) && Enabled(Next(s, get), del) && Enabled(Next(Next(s, get), del), end)
      && Next(Next(Next(s, get), del), end).api == s.api - {key}
      && Next(Next(Next(s, get), del), end).removed == s.removed + [(key, s.api[key])]
  {
    hide Invariant, Complete, UidAndPodKey, Free, SplitMetaNamespaceKey;
    HandledIsNamed(s, queued);
  }

  // ---------------------------------------------------------------- no deletion is lost

  /** A handler will start for the key after this moment, unless it is forgotten. */
  predicate Awaited(q: State, queued: Key) {
    || Listed(q.items, queued)
    || (queued in q.processing && q.processing[queued].redirtiedAt != ZERO_TIME && !q.processing[queued].forget)
  }

  /** A handler of the key has yet to delete its pod or to be retried. */
  predicate AtWork(s: System, queued: Key) {
    queued in s.handlers && (s.handlers[queued] == Done(true) || !s.handlers[queued].Done?)
  }

  predicate Accounted(s: System, queued: Key) {
    !Free(queued, '/') && (Gone(s.api, queued) || Awaited(s.queue, queued) || AtWork(s, queued))
  }

  /**
   The step ends the work on a deletion whose pod is there: a read that does not show that pod, or a
   failure that is given up, while no further handler of the key is to start.
   */
  predicate Loses(s: System, step: Step, queued: Key) {
    && !Free(queued, '/') && !Gone(s.api, queued) && !Awaited(s.queue, queued)
    && match step
       case Get(key, read) => key == queued && (read.Missing? || (read.Seen? && read.pod.uid != UidOf(queued)))
       case Finish(key, verdict, _, _, _) =>
         key == queued && queued in s.handlers && s.handlers[queued] == Done(true) && verdict.GiveUp?
       case _ => false
  }

  predicate Schedules(step: Step, queued: Key) {
    step.Schedule? && DeletionKey(step.key, step.pod.uid) == queued
  }

  /** No step of the run loses the deletion. */
  predicate Lossless(s: System, steps: seq<Step>, queued: Key)
    requires Admissible(s, steps)
    decreases |steps|
  {
    steps == [] || (!Loses(s, steps[0], queued) && Lossless(Next(s, steps[0]), steps[1..], queued))
  }

  /** The step that schedules a deletion accounts for it. */
  lemma ScheduleAccounts(s: System, step: Step)
    requires Invariant(s) && Enabled(s, step) && step.Schedule?
    ensures var queued := DeletionKey(step.key, step.pod.uid); var s' := Next(s, step);
      NamesMarked(s'.given, s'.marked, queued) && Accounted(s', queued)
  {
    hide Find, Insert, DeletionKey, UidAndPodKey, Free, OneSlash, PastIsSound, RemovedWereMarked, Inv;
    ScheduledNamesMarked(s, step.key, step.pod);
    var queued := DeletionKey(step.key, step.pod.uid);
    InsertByKey(s.queue, queued, false, DelayOf(step.pod, step.grace), step.now, step.limiter);
  }

  /** What the queue does with a key keeps it awaited or hands it to a handler, unless the step loses it. */
  lemma QueueStepAccounts(s: System, step: Step, k: Key)
    requires Inv(s.queue) && (forall k :: k in s.handlers <==> k in s.queue.processing)
    requires Enabled(s, step) && (step.Schedule? || step.ForgetDeletion? || step.Take?)
    requires Accounted(s, k) && !Gone(s.api, k)
    requires step.ForgetDeletion? ==> DeletionKey(step.key, step.uid) != k
    ensures Accounted(Next(s, step), k)
  {
    hide Inv, Find, Insert, Forget, WorkQueue.Take, UidAndPodKey, Free, Gone, DeletionKey;
    match step {
      case Schedule(key, pod, grace, now, limiter) =>
        InsertByKey(s.queue, DeletionKey(key, pod.uid), false, DelayOf(pod, grace), now, limiter);
      case ForgetDeletion(key, uid) => ForgetByKey(s.queue, DeletionKey(key, uid));
      case Take(_) => TakeByKey(s.queue);
    }
  }

  lemma FinishAccountsIff(s: System, step: Step, k: Key)
    requires Inv(s.queue) && (forall k :: k in s.handlers <==> k in s.queue.processing) && ForgottenAreGone(s)
    requires Enabled(s, step) && step.Finish? && Accounted(s, k) && !Gone(s.api, k)
    ensures Accounted(Next(s, step), k) <==> !Loses(s, step, k)
  {
    hide Inv, Find, Complete, UidAndPodKey, Free, Gone;
    ProcessingIsNotListed(s.queue, step.queued);
    CompleteByKey(s.queue, step.queued, s.handlers[step.queued].failed, step.verdict, step.measured, step.now,
      step.limiter);
  }

  /** A handler's read or delete, or what happens to a pod. */
  lemma WorkAccountsIff(s: System, step: Step, k: Key)
    requires Enabled(s, step) && !step.Schedule? && !step.ForgetDeletion? && !step.Take? && !step.Finish?
    requires Accounted(s, k) && !Gone(s.api, k)
    requires step.Get? && step.queued == k ==> SplitMetaNamespaceKey(PodKeyOf(k)).Some?
    ensures Accounted(Next(s, step), k) <==> !Loses(s, step, k)
  {
    hide Find, UidAndPodKey, Free, Awaited, PodKey, SplitMetaNamespaceKey;
  }

  /** A forgotten deletion is one whose pod is gone. */
  lemma ForgottenIsGone(s: System, step: Step, k: Key)
    requires PastIsSound(s) && Enabled(s, step) && step.ForgetDeletion? && DeletionKey(step.key, step.uid) == k
    ensures !Free(k, '/') && Gone(s.api, k)
  {
    hide UidAndPodKey, Free, OneSlash, DeletionKey;
    DeletionKeyRecoveredIff(step.key, step.uid);
  }

  /** A step leaves a deletion that is accounted for accounted for exactly if it does not lose it. */
  lemma StepAccountsIff(s: System, step: Step, k: Key)
    requires Invariant(s) && NamesMarked(s.given, s.marked, k) && Accounted(s, k) && Enabled(s, step)
    ensures NamesMarked(Next(s, step).given, Next(s, step).marked, k)
    ensures Accounted(Next(s, step), k) <==> !Loses(s, step, k)
  {
    hide Enabled, Next, Inv, Find, UidAndPodKey, Free, OneSlash, PastIsSound, RemovedWereMarked, ForgottenAreGone,
      Awaited, Gone, DeletionKey, SplitMetaNamespaceKey;
    StepPastIsSound(s, step);
    if Gone(s.api, k) {
      StaysGone(s, step, k);
    } else if step.Finish? {
      FinishAccountsIff(s, step, k);
    } else if step.Schedule? || step.ForgetDeletion? || step.Take? {
      if step.ForgetDeletion? && DeletionKey(step.key, step.uid) == k {
        ForgottenIsGone(s, step, k);
      }
      QueueStepAccounts(s, step, k);
    } else {
      NamesMarkedParts(s, k);
      WorkAccountsIff(s, step, k);
    }
  }

  lemma {:induction false} LosslessRunAccounts(s: System, steps: seq<Step>, k: Key)
    requires Invariant(s) && NamesMarked(s.given, s.marked, k) && Accounted(s, k)
    requires Admissible(s, steps) && Lossless(s, steps, k)
    ensures Invariant(Exec(s, steps)) && Accounted(Exec(s, steps), k)
    decreases |steps|
  {
    hide Invariant, NamesMarked, Accounted, Loses, Enabled, Next;
    if steps != [] {
      StepInvariant(s, steps[0]);
      StepAccountsIff(s, steps[0], k);
      LosslessRunAccounts(Next(s, steps[0]), steps[1..], k);
    }
  }

  /**
   No deletion is lost: after any run, whatever follows the scheduling of a deletion, as long as no
   step loses it, its pod is gone, or its key waits or is redirtied, or a handler has yet to delete
   the pod or to be retried.
   */
  lemma NoDeletionIsLost(before: seq<Step>, schedule: Step, after: seq<Step>)
    requires Admissible(INITIAL, before) && schedule.Schedule? && Enabled(Exec(INITIAL, before), schedule)
    requires var s := Next(Exec(INITIAL, before), schedule);
      Admissible(s, after) && Lossless(s, after, DeletionKey(schedule.key, schedule.pod.uid))
    ensures var queued := DeletionKey(schedule.key, schedule.pod.uid);
      var s := Exec(Next(Exec(INITIAL, before), schedule), after);
      || schedule.key !in s.api || s.api[schedule.key].uid != schedule.pod.uid
      || Listed(s.queue.items, queued)
      || (queued in s.queue.processing && s.queue.processing[queued].redirtiedAt != ZERO_TIME
          && !s.queue.processing[queued].forget)
      || (queued in s.handlers && (s.handlers[queued] == Done(true) || !s.handlers[queued].Done?))
  {
    ScheduledIsAccounted(before, schedule, after);
    hide Admissible, Exec, Lossless, Find, Free, UidAndPodKey, DeletionKey, Enabled, Next;
  }

  lemma ScheduledIsAccounted(before: seq<Step>, schedule: Step, after: seq<Step>)
    requires Admissible(INITIAL, before) && schedule.Schedule? && Enabled(Exec(INITIAL, before), schedule)
    requires var s := Next(Exec(INITIAL, before), schedule);
      Admissible(s, after) && Lossless(s, after, DeletionKey(schedule.key, schedule.pod.uid))
    ensures var queued := DeletionKey(schedule.key, schedule.pod.uid);
      var s := Exec(Next(Exec(INITIAL, before), schedule), after);
      Invariant(s) && Accounted(s, queued) && UidAndPodKey(queued) == (schedule.pod.uid, schedule.key)
  {
    hide Admissible, Exec, Lossless, Find, Free, UidAndPodKey, DeletionKey, Next, Inv, Insert, NamesMarked, Accounted;
    InitialInvariant();
    AlwaysInvariant(INITIAL, before);
    var s := Exec(INITIAL, before);
    StepInvariant(s, schedule);
    ScheduleAccounts(s, schedule);
    LosslessRunAccounts(Next(s, schedule), after, DeletionKey(schedule.key, schedule.pod.uid));
    DeletionKeyRecoveredIff(schedule.key, schedule.pod.uid);
  }

  /** When nothing waits or is handled after such a run, the deletion is done. */
  lemma AtRestDeletionsAreDone(before: seq<Step>, schedule: Step, after: seq<Step>)
    requires Admissible(INITIAL, before) && schedule.Schedule? && Enabled(Exec(INITIAL, before), schedule)
    requires var s := Next(Exec(INITIAL, before), schedule);
      Admissible(s, after) && Lossless(s, after, DeletionKey(schedule.key, schedule.pod.uid))
    requires Exec(Next(Exec(INITIAL, before), schedule), after).queue == EMPTY
    ensures var s := Exec(Next(Exec(INITIAL, before), schedule), after);
      schedule.key !in s.api || s.api[schedule.key].uid != schedule.pod.uid
  {
    ScheduledIsAccounted(before, schedule, after);
    hide Admissible, Exec, Lossless, Free, UidAndPodKey, DeletionKey, Enabled, Next, PastIsSound;
  }

  // ---------------------------------------------------------------- losing a deletion

  /** No handler will start for the key, and none is at work on it. */
  ghost predicate Abandoned(s: System, queued: Key) {
    NamesMarked(s.given, s.marked, queued) && !Awaited(s.queue, queued) && !AtWork(s, queued)
  }

  lemma LosingAbandons(s: System, step: Step, k: Key)
    requires Invariant(s) && Enabled(s, step) && Loses(s, step, k)
    ensures Abandoned(Next(s, step), k) && !Free(k, '/') && !Gone(Next(s, step).api, k)
  {
    hide Inv, Find, Complete, UidAndPodKey, Free, OneSlash, PastIsSound, RemovedWereMarked, SplitMetaNamespaceKey;
    assert NamesMarked(s.given, s.marked, k);
    if step.Finish? {
      CompleteByKey(s.queue, k, s.handlers[k].failed, step.verdict, step.measured, step.now, step.limiter);
    }
  }

  /** An abandoned deletion stays so until it is scheduled again, and no handler deletes its pod. */
  lemma StepKeepsAbandoned(s: System, step: Step, k: Key)
    requires Invariant(s) && Enabled(s, step) && Abandoned(s, k) && !Schedules(step, k)
    ensures Abandoned(Next(s, step), k)
    ensures s.removed <= Next(s, step).removed
    ensures forall i :: |s.removed| <= i < |Next(s, step).removed| ==> Next(s, step).removed[i].1.uid != UidOf(k)
  {
    hide Inv, Find, Insert, Forget, Complete, WorkQueue.Take, UidAndPodKey, Free, OneSlash, PastIsSound,
      RemovedWereMarked, ForgottenAreGone, SplitMetaNamespaceKey, DeletionKey, AfterGet;
    StepPastIsSound(s, step);
    match step {
      case Schedule(key, pod, grace, now, limiter) =>
        InsertByKey(s.queue, DeletionKey(key, pod.uid), false, DelayOf(pod, grace), now, limiter);
      case ForgetDeletion(key, uid) => ForgetByKey(s.queue, DeletionKey(key, uid));
      case Take(_) => TakeByKey(s.queue);
      case Finish(queued, verdict, measured, now, limiter) =>
        CompleteByKey(s.queue, queued, s.handlers[queued].failed, verdict, measured, now, limiter);
      case Delete(queued, _) =>
        NamesMarkedParts(s, queued);
        NamesMarkedParts(s, k);
      case _ =>
    }
  }

  lemma {:induction false} StaysAbandoned(s: System, steps: seq<Step>, k: Key)
    requires Invariant(s) && Abandoned(s, k) && Admissible(s, steps)
    requires forall step :: step in steps ==> !Schedules(step, k)
    ensures Abandoned(Exec(s, steps), k)
    ensures s.removed <= Exec(s, steps).removed
    ensures forall i :: |s.removed| <= i < |Exec(s, steps).removed| ==>
              Exec(s, steps).removed[i].1.uid != UidOf(k)
    decreases |steps|
  {
    hide Invariant, Free, UidAndPodKey, Schedules, Awaited, AtWork, Enabled, Next;
    if steps != [] {
      var s' := Next(s, steps[0]);
      StepInvariant(s, steps[0]);
      StepKeepsAbandoned(s, steps[0], k);
      StaysAbandoned(s', steps[1..], k);
      assert forall i :: |s.removed| <= i < |s'.removed| ==> s'.removed[i].1.uid != UidOf(k);
    }
  }

  /**
   The condition is exact: after any run, a step that loses a deletion leaves its pod where it is,
   and until the deletion is scheduled again, whatever happens, its key never waits or is handled
   once more and no handler of the queue deletes that pod.
   */
  lemma LossIsFinal(before: seq<Step>, step: Step, after: seq<Step>, k: Key)
    requires Admissible(INITIAL, before) && Enabled(Exec(INITIAL, before), step)
    requires Loses(Exec(INITIAL, before), step, k) && Admissible(Next(Exec(INITIAL, before), step), after)
    requires forall later :: later in after ==> !Schedules(later, k)
    ensures !Free(k, '/') && !Gone(Next(Exec(INITIAL, before), step).api, k)
    ensures var lost := Next(Exec(INITIAL, before), step); var s := Exec(lost, after);
      && !Awaited(s.queue, k) && !AtWork(s, k)
      && lost.removed <= s.removed
      && (forall i :: |lost.removed| <= i < |s.removed| ==> s.removed[i].1.uid != UidOf(k))
  {
    hide Admissible, Exec, Find, Free, UidAndPodKey, Next, Inv, Loses, Enabled, Schedules, Awaited, AtWork, NamesMarked;
    InitialInvariant();
    AlwaysInvariant(INITIAL, before);
    var s := Exec(INITIAL, before);
    StepInvariant(s, step);
    LosingAbandons(s, step, k);
    StaysAbandoned(Next(s, step), after, k);
  }

  // ---------------------------------------------------------------- why the UID precondition is needed

  lemma {:induction false} Extend(s: System, steps: seq<Step>, step: Step)
    requires Admissible(s, steps) && Enabled(Exec(s, steps), step)
    ensures Admissible(s, steps + [step]) && Exec(s, steps + [step]) == Next(Exec(s, steps), step)
    decreases |steps|
  {
    hide Enabled, Next;
    if steps == [] {
      assert steps + [step] == [step];
    } else {
      Extend(Next(s, steps[0]), steps[1..], step);
      assert (steps + [step])[1..] == steps[1..] + [step];
    }
  }

  /** A pod is marked and the handler of its deletion starts. */
  lemma DeletionStarts(namespace: string, name: string, uid: Uid) returns (steps: seq<Step>)
    requires Free(namespace, '/') && Free(name, '/') && Free(uid, '/')
    ensures var key := PodKey(namespace, name); var pod := Pod(uid, true, true);
      && Admissible(INITIAL, steps)
      && var s := Exec(INITIAL, steps);
         && s.api == map[key := pod] && (key, pod) in s.past && s.given == map[uid := key] && s.marked == {uid}
         && s.handlers == map[DeletionKey(key, uid) := Started]
         && var it := WorkQueue.Fresh(DeletionKey(key, uid), false, Some(0), 1, 0);
            s.queue == State([], map[it.key := it])
  {
    hide DeletionKey, PodKey, Free;
    var key, pod := PodKey(namespace, name), Pod(uid, true, true);
    var it := WorkQueue.Fresh(DeletionKey(key, uid), false, Some(0), 1, 0);
    var s1 := Next(INITIAL, Create(namespace, name, uid, true));
    var s2 := Next(s1, Mark(key));
    assert Next(s2, Schedule(key, pod, 0, 1, 0)).queue == State([it], map[]);
    Extend(INITIAL, [], Create(namespace, name, uid, true));
    steps := [] + [Create(namespace, name, uid, true)];
    Extend(INITIAL, steps, Mark(key));
    steps := steps + [Mark(key)];
    Extend(INITIAL, steps, Schedule(key, pod, 0, 1, 0));
    steps := steps + [Schedule(key, pod, 0, 1, 0)];
    Extend(INITIAL, steps, Take(1));
    steps := steps + [Take(1)];
    assert s2.api == map[key := pod];
  }

  /**
   Comparing UIDs after the read is not enough: for any two pods of one name, a handler can pass
   that comparison with the UID of the first while the name already belongs to the second, which
   nobody marked. Only the precondition of the delete call then keeps the second pod.
   */
  lemma ComparingUidsIsNotEnough(namespace: string, name: string, first: Uid, second: Uid) returns (steps: seq<Step>)
    requires Free(namespace, '/') && Free(name, '/') && Free(first, '/') && Free(second, '/') && first != second
    ensures var key := PodKey(namespace, name); var queued := DeletionKey(key, first);
      && Admissible(INITIAL, steps)
      && var s := Exec(INITIAL, steps);
         && queued in s.handlers && s.handlers[queued] == Checked
         && key in s.api && s.api[key].uid == second && second !in s.marked
         && !Free(queued, '/') && PodKeyOf(queued) == key
         && Next(s, Delete(queued, Answered)).api == s.api
  {
    hide DeletionKey, PodKey, Free, OneSlash, UidAndPodKey, SplitMetaNamespaceKey, Insert, WorkQueue.Take;
    var key, queued := PodKey(namespace, name), DeletionKey(PodKey(namespace, name), first);
    DeletionKeyRecoveredIff(key, first);
    PodKeyRecoveredIff(namespace, name);
    steps := DeletionStarts(namespace, name, first);
    var get := Get(queued, Seen(Pod(first, true, true)));
    Extend(INITIAL, steps, get);
    steps := steps + [get];
    Extend(INITIAL, steps, Vanish(key));
    steps := steps + [Vanish(key)];
    Extend(INITIAL, steps, Create(namespace, name, second, true));
    steps := steps + [Create(namespace, name, second, true)];
  }

  /** For every pod there is a run in which a read that misses it ends its deletion, and it stays as it is. */
  lemma MissingReadLosesDeletion(namespace: string, name: string, uid: Uid) returns (steps: seq<Step>)
    requires Free(namespace, '/') && Free(name, '/') && Free(uid, '/')
    ensures var key := PodKey(namespace, name);
      && Admissible(INITIAL, steps)
      && var s := Exec(INITIAL, steps);
         s.queue == EMPTY && s.handlers == map[] && s.api == map[key := Pod(uid, true, true)]
  {
    hide DeletionKey, PodKey, Free, OneSlash, UidAndPodKey, SplitMetaNamespaceKey, Insert, WorkQueue.Take, Find;
    var key, queued := PodKey(namespace, name), DeletionKey(PodKey(namespace, name), uid);
    DeletionKeyRecoveredIff(key, uid);
    PodKeyRecoveredIff(namespace, name);
    steps := DeletionStarts(namespace, name, uid);
    var get, end := Get(queued, Missing), Finish(queued, GiveUp, 1, 1, 0);
    Extend(INITIAL, steps, get);
    steps := steps + [get];
    Extend(INITIAL, steps, end);
    steps := steps + [end];
  }
}
