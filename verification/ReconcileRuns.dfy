/**
 The reconciler over its work queue: the cache changes, its events are delivered in order, some of
 them enqueue a key, and handlers of the queue read the cache and act on what they read. All of
 this interleaves with reports about pods.
 */
module ReconcileRuns {
  import opened Wrappers
  import opened WorkQueue
  import opened Codecs
  import opened PodModel
  import opened StatusFold
  import opened Reconcile

  /** What the cache tells about one of its changes. */
  datatype Event = Added(pod: Pod) | Updated(was: Pod, pod: Pod) | Deleted(pod: Pod)

  datatype Phase = Started | Looked(read: Read) | Done(failed: bool)

  datatype Cluster = Cluster(
    cache: map<Key, Pod>,
    events: seq<Event>,               // told, not yet delivered
    world: World,
    queue: State,
    handlers: map<Key, Phase>)

  datatype Step =
    | Change(key: Key, pod: Option<Pod>)
    | Deliver(heard: bool, now: Time, limiter: Duration)
    | Take(now: Time)
    | Look(key: Key, fails: bool)
    | Act(key: Key, now: Time, limiter: Duration)
    | Finish(key: Key, verdict: Verdict, measured: Time, now: Time, limiter: Duration)
    | Report(report: BizStatus)
    | DeleteStray(podKey: Key)

  const INITIAL := Cluster(map[], [], Reconcile.INITIAL, EMPTY, map[])

  // ---------------------------------------------------------------- events

  /** Whether an update of a pod enqueues its key. */
  predicate ShouldEnqueue(was: Pod, pod: Pod) {
    !PodsEqual(was, pod) || was.deletion != pod.deletion
  }

  /** An ended pod runs again, which no update announces. */
  predicate Revives(was: Pod, pod: Pod) {
    IsTerminal(was) && !IsTerminal(pod)
  }

  /** A pod marked for deletion stands where another one was, which no update announces if it is equal. */
  predicate Replaces(was: Pod, pod: Pod) {
    pod.deletion.Some? && was.uid != pod.uid
  }

  /** Whether there may be something to do after an event. */
  predicate Matters(e: Event) {
    match e
    case Added(_) => true
    case Updated(was, pod) => ShouldEnqueue(was, pod) || Revives(was, pod) || Replaces(was, pod)
    case Deleted(_) => true
  }

  function Known(w: World, key: Key): World {
    if key in w.known then w else w.(known := w.known[key := None])
  }

  /** What the handler of an event does to what is known. */
  function Learn(w: World, e: Event, heard: bool): World {
    match e
    case Deleted(pod) => if heard then w.(known := w.known - {KeyOf(pod)}) else w
    case _ => Known(w, KeyOf(e.pod))
  }

  predicate Enqueues(e: Event, heard: bool) {
    heard && (e.Updated? ==> ShouldEnqueue(e.was, e.pod))
  }

  function Told(cache: map<Key, Pod>, key: Key, pod: Option<Pod>): Event
    requires pod.Some? || key in cache
  {
    if key !in cache then Added(pod.value)
    else if pod.Some? then Updated(cache[key], pod.value)
    else Deleted(cache[key])
  }

  // ---------------------------------------------------------------- where a key is heading

  function ReadOf(cache: map<Key, Pod>, key: Key): Read {
    if key in cache then Cached(cache[key]) else NotCached
  }

  predicate Awaited(q: State, key: Key) {
    Listed(q.items, key) || (key in q.processing && q.processing[key].redirtiedAt != ZERO_TIME)
  }

  /** An event of the key that matters is on its way. */
  predicate Announced(events: seq<Event>, key: Key) {
    exists i | 0 <= i < |events| :: KeyOf(events[i].pod) == key && Matters(events[i])
  }

  /** The provider has what the cache asks for: no pod, or an equal one if the cached one is live and not terminal. */
  predicate Mirrored(store: Pods, key: Key, read: Read) {
    match read
    case NotCached => key !in store
    case Cached(pod) => pod.deletion.None? && !IsTerminal(pod) ==> key in store && PodsEqual(store[key], pod)
    case CacheFailed => true
  }

  /** The provider mirrors the cache, a cached pod is known, and its deletion is scheduled if it is marked for it. */
  predicate InLine(w: World, key: Key, read: Read) {
    && (read.Cached? ==> key in w.known)
    && Mirrored(w.store, key, read)
    && (read.Cached? && read.pod.deletion.Some? ==> Scheduled(w.deletions, key, read.pod.uid))
  }

  /** The present handler, if any, brings the provider in line with the cache. */
  predicate Outlook(s: Cluster, key: Key) {
    var read := ReadOf(s.cache, key);
    if key !in s.handlers then InLine(s.world, key, read)
    else match s.handlers[key]
      case Started => true
      case Looked(seen) => InLine(Pass(s.world, key, seen, 0, 0), key, read)
      case Done(failed) => failed || InLine(s.world, key, read)
  }

  /** A cached pod is known, and a handler will start or the present one does for the key. */
  predicate OnCourse(s: Cluster, key: Key) {
    (key in s.cache ==> key in s.world.known) && (Awaited(s.queue, key) || Outlook(s, key))
  }

  // ---------------------------------------------------------------- steps

  predicate Enabled(s: Cluster, step: Step) {
    match step
    case Change(key, pod) =>
      && OneSlash(key) && (pod.Some? || key in s.cache)
      && (pod.Some? ==> ReadsKey(key, Cached(pod.value)) && KeyOf(pod.value) == key)
    case Deliver(_, now, _) => s.events != [] && now > ZERO_TIME
    case Take(now) => Due(s.queue, now)
    case Look(key, _) => key in s.handlers && s.handlers[key].Started?
    case Act(key, _, _) => key in s.handlers && s.handlers[key].Looked?
    case Finish(key, _, _, _, _) => key in s.handlers && s.handlers[key].Done? && key in s.queue.processing
    case Report(_) => true
    case DeleteStray(podKey) => podKey !in s.world.known && podKey !in s.cache
  }

  ghost function Next(localIP: string, s: Cluster, step: Step): Cluster
    requires Enabled(s, step)
  {
    match step
    case Change(key, pod) =>
      s.(cache := if pod.Some? then s.cache[key := pod.value] else s.cache - {key},
         events := s.events + [Told(s.cache, key, pod)])
    case Deliver(heard, now, limiter) =>
      var e := s.events[0]; var key := KeyOf(e.pod);
      var s' := s.(events := s.events[1..], world := Learn(s.world, e, heard));
      if Enqueues(e, heard) then s'.(queue := Insert(s.queue, key, true, None, now, limiter)) else s'
    case Take(_) =>
      s.(queue := WorkQueue.Take(s.queue), handlers := s.handlers[s.queue.items[0].key := Started])
    case Look(key, fails) =>
      s.(handlers := s.handlers[key := if fails then Done(true) else Looked(ReadOf(s.cache, key))])
    case Act(key, now, limiter) =>
      s.(world := Pass(s.world, key, s.handlers[key].read, now, limiter), handlers := s.handlers[key := Done(false)])
    case Finish(key, verdict, measured, now, limiter) =>
      var failed := s.handlers[key].failed;
      s.(queue := Complete(s.queue, key, failed, verdict, measured, now, limiter),
         handlers := s.handlers - {key})
    case Report(report) => s.(world := s.world.(store := SyncOne(localIP, s.world.store, report)))
    case DeleteStray(podKey) => s.(world := s.world.(store := s.world.store - {podKey}))
  }

  ghost predicate Admissible(localIP: string, s: Cluster, steps: seq<Step>)
    decreases |steps|
  {
    steps == [] || (Enabled(s, steps[0]) && Admissible(localIP, Next(localIP, s, steps[0]), steps[1..]))
  }

  ghost function Exec(localIP: string, s: Cluster, steps: seq<Step>): Cluster
    requires Admissible(localIP, s, steps)
    decreases |steps|
  {
    if steps == [] then s else Exec(localIP, Next(localIP, s, steps[0]), steps[1..])
  }

  // ---------------------------------------------------------------- conditions on the steps of a key

  /** A handler that saw no pod is about to delete the provider's, while one is cached and no event of it is to come. */
  predicate Dropping(s: Cluster, key: Key) {
    && key in s.handlers && s.handlers[key] == Looked(NotCached)
    && key in s.world.store && key in s.cache && !Announced(s.events, key)
  }

  /** The step conditions in their plain form: events that matter enqueue, no pass drops a pod, failures are retried. */
  predicate Prompt(s: Cluster, step: Step, key: Key)
    requires Enabled(s, step)
  {
    match step
    case Deliver(heard, _, _) => KeyOf(s.events[0].pod) == key && Matters(s.events[0]) ==> Enqueues(s.events[0], heard)
    case Act(acted, _, _) => acted == key ==> !Dropping(s, key)
    case Finish(ended, verdict, _, _, _) => ended == key && s.handlers[key].failed ==> verdict.Retry?
    case _ => true
  }

  ghost predicate PromptRun(localIP: string, s: Cluster, steps: seq<Step>, key: Key)
    requires Admissible(localIP, s, steps)
    decreases |steps|
  {
    steps == [] || (Prompt(s, steps[0], key) && PromptRun(localIP, Next(localIP, s, steps[0]), steps[1..], key))
  }

  /** Somebody will still handle a key, or its handler does what is needed, or nothing is. */
  predicate Served(s: Cluster, key: Key) {
    Awaited(s.queue, key) || Outlook(s, key)
  }

  /**
   The weakest conditions: an event that matters may be left alone if another is to come or the key
   is served without it, and a failure may be given up if nothing is needed or the key was redirtied.
   */
  predicate Careful(s: Cluster, step: Step, key: Key)
    requires Enabled(s, step)
  {
    match step
    case Deliver(heard, _, _) =>
      var e := s.events[0];
      KeyOf(e.pod) == key && Matters(e) && !Enqueues(e, heard) ==>
        Announced(s.events[1..], key) || Served(s.(world := Learn(s.world, e, heard)), key)
    case Act(acted, _, _) => acted == key ==> !Dropping(s, key)
    case Finish(ended, verdict, _, _, _) =>
      ended == key && s.handlers[key].failed && verdict.GiveUp? ==>
        Announced(s.events, key) || Awaited(s.queue, key) || InLine(s.world, key, ReadOf(s.cache, key))
    case _ => true
  }

  ghost predicate CarefulRun(localIP: string, s: Cluster, steps: seq<Step>, key: Key)
    requires Admissible(localIP, s, steps)
    decreases |steps|
  {
    steps == [] || (Careful(s, steps[0], key) && CarefulRun(localIP, Next(localIP, s, steps[0]), steps[1..], key))
  }

  lemma PromptIsCareful(s: Cluster, step: Step, key: Key)
    requires Enabled(s, step) && Prompt(s, step, key)
    ensures Careful(s, step, key)
  {
    hide Served, Matters, Announced, Awaited, InLine, Learn, KeyOf;
  }

  /** Runs whose steps on a key are prompt are careful with it. */
  lemma {:induction false} PromptRunIsCareful(localIP: string, s: Cluster, steps: seq<Step>, key: Key)
    requires Admissible(localIP, s, steps) && PromptRun(localIP, s, steps, key)
    ensures CarefulRun(localIP, s, steps, key)
    decreases |steps|
  {
    hide Careful, Prompt;
    if steps != [] {
      PromptIsCareful(s, steps[0], key);
      PromptRunIsCareful(localIP, Next(localIP, s, steps[0]), steps[1..], key);
    }
  }

  // ---------------------------------------------------------------- the invariant

  ghost predicate Converging(s: Cluster, key: Key) {
    Announced(s.events, key) || OnCourse(s, key)
  }

  ghost predicate QueueConsistent(queue: State, handlers: map<Key, Phase>) {
    && Inv(queue)
    && (forall k :: k in handlers <==> k in queue.processing)
    && (forall k :: k in queue.processing ==> !queue.processing[k].forget)
  }

  /** Keys are pod keys, each pod is filed, told and read under its own, and the deletions are a queue. */
  ghost predicate KeysSound(s: Cluster) {
    && Inv(s.world.deletions)
    && (forall k :: k in s.cache ==> OneSlash(k) && ReadsKey(k, Cached(s.cache[k])) && KeyOf(s.cache[k]) == k)
    && (forall e :: e in s.events ==> OneSlash(KeyOf(e.pod)))
    && (forall k :: Listed(s.queue.items, k) || k in s.queue.processing ==> OneSlash(k))
    && (forall k :: k in s.handlers && s.handlers[k].Looked? ==> ReadsKey(k, s.handlers[k].read))
  }

  /**
   A pod told to be deleted and cached again is told to be added after that, and one told of and no
   longer cached is told to be deleted then or later.
   */
  ghost predicate EventsSound(s: Cluster) {
    && (forall i :: 0 <= i < |s.events| && s.events[i].Deleted? && KeyOf(s.events[i].pod) in s.cache ==>
          AddedAfter(s.events, i))
    && (forall i :: 0 <= i < |s.events| && KeyOf(s.events[i].pod) !in s.cache ==> DeletedFrom(s.events, i))
  }

  predicate AddedAfter(events: seq<Event>, i: nat)
    requires i < |events|
  {
    exists j | i < j < |events| :: events[j].Added? && KeyOf(events[j].pod) == KeyOf(events[i].pod)
  }

  predicate DeletedFrom(events: seq<Event>, i: nat)
    requires i < |events|
  {
    exists j | i <= j < |events| :: events[j].Deleted? && KeyOf(events[j].pod) == KeyOf(events[i].pod)
  }

  /** What every step keeps. */
  ghost predicate Sound(s: Cluster) {
    QueueConsistent(s.queue, s.handlers) && KeysSound(s) && Linked(s.world) && EventsSound(s)
  }

  // ---------------------------------------------------------------- the invariant is kept

  lemma FrontIsListed(q: State)
    requires Inv(q) && q.items != []
    ensures Listed(q.items, q.items[0].key)
  {
    TakeByKey(q);
  }

  lemma InsertAwaits(q: State, handlers: map<Key, Phase>, key: Key, now: Time, limiter: Duration)
    requires QueueConsistent(q, handlers) && now > ZERO_TIME
    ensures var q' := Insert(q, key, true, None, now, limiter);
      && QueueConsistent(q', handlers) && Awaited(q', key) && (forall k :: Awaited(q, k) ==> Awaited(q', k))
      && (forall k :: Listed(q'.items, k) || k in q'.processing ==>
            k == key || Listed(q.items, k) || k in q.processing)
  {
    hide Inv, Find, Insert;
    InsertByKey(q, key, true, None, now, limiter);
  }

  lemma TakeAwaits(q: State, handlers: map<Key, Phase>)
    requires QueueConsistent(q, handlers) && q.items != []
    ensures var key, q' := q.items[0].key, WorkQueue.Take(q);
      && QueueConsistent(q', handlers[key := Started]) && key !in handlers && Listed(q.items, key)
      && (forall k :: k != key && Awaited(q, k) ==> Awaited(q', k))
      && (forall k :: Listed(q'.items, k) || k in q'.processing ==> Listed(q.items, k) || k in q.processing)
  {
    hide Inv, Find, WorkQueue.Take;
    FrontIsListed(q);
    WaitingIsUnmarked(q);
    TakeByKey(q);
  }

  lemma FinishAwaits(q: State, handlers: map<Key, Phase>, key: Key, failed: bool, verdict: Verdict,
                     measured: Time, now: Time, limiter: Duration)
    requires QueueConsistent(q, handlers) && key in q.processing
    ensures var q' := Complete(q, key, failed, verdict, measured, now, limiter);
      && QueueConsistent(q', handlers - {key})
      && (forall k :: Awaited(q, k) ==> Awaited(q', k)) && (failed && verdict.Retry? ==> Awaited(q', key))
      && (forall k :: Listed(q'.items, k) || k in q'.processing ==> Listed(q.items, k) || k in q.processing)
  {
    hide Inv, Find, Complete;
    ProcessingIsNotListed(q, key);
    CompleteByKey(q, key, failed, verdict, measured, now, limiter);
  }

  /** Learning, reports and strays keep the link between the version last acted on and the store. */
  lemma StepLinked(localIP: string, s: Cluster, step: Step)
    requires KeysSound(s) && Linked(s.world) && Enabled(s, step)
    requires step.Act? ==> OneSlash(step.key)
    ensures Linked(Next(localIP, s, step).world)
  {
    hide OneSlash, Find, Insert, Complete, WorkQueue.Take, Pass, PodKey, SplitMetaNamespaceKey, Inv;
    match step {
      case Act(key, now, limiter) => HandleKeepsLinked(s.world, key, s.handlers[key].read, now, limiter);
      case Report(report) => StepKeepsLinked(localIP, s.world, Reconcile.Report(report));
      case _ =>
    }
  }

  lemma HandledIsPodKey(s: Cluster, key: Key)
    requires QueueConsistent(s.queue, s.handlers) && KeysSound(s) && key in s.handlers
    ensures OneSlash(key)
  {
  }

  lemma StepQueueConsistent(localIP: string, s: Cluster, step: Step)
    requires QueueConsistent(s.queue, s.handlers) && Enabled(s, step)
    ensures QueueConsistent(Next(localIP, s, step).queue, Next(localIP, s, step).handlers)
  {
    hide OneSlash, Find, Insert, Complete, WorkQueue.Take, Pass, PodKey, SplitMetaNamespaceKey, QueueConsistent;
    match step {
      case Deliver(heard, now, limiter) => InsertAwaits(s.queue, s.handlers, KeyOf(s.events[0].pod), now, limiter);
      case Take(_) => TakeAwaits(s.queue, s.handlers);
      case Finish(key, verdict, measured, now, limiter) =>
        FinishAwaits(s.queue, s.handlers, key, s.handlers[key].failed, verdict, measured, now, limiter);
      case _ => SameHandledKeys(localIP, s, step);
    }
  }

  lemma StepKeysSound(localIP: string, s: Cluster, step: Step)
    requires QueueConsistent(s.queue, s.handlers) && KeysSound(s) && Enabled(s, step)
    requires Inv(Next(localIP, s, step).world.deletions)
    ensures KeysSound(Next(localIP, s, step))
  {
    hide OneSlash, Find, Insert, Complete, WorkQueue.Take, Pass, PodKey, SplitMetaNamespaceKey, QueueConsistent, KeyOf,
      Learn, SyncOne, Enqueues, Inv;
    match step {
      case Deliver(heard, now, limiter) => InsertAwaits(s.queue, s.handlers, KeyOf(s.events[0].pod), now, limiter);
      case Take(_) => TakeAwaits(s.queue, s.handlers);
      case Finish(key, verdict, measured, now, limiter) =>
        FinishAwaits(s.queue, s.handlers, key, s.handlers[key].failed, verdict, measured, now, limiter);
      case _ =>
    }
  }

  lemma SameHandledKeys(localIP: string, s: Cluster, step: Step)
    requires QueueConsistent(s.queue, s.handlers) && Enabled(s, step)
    requires !step.Deliver? && !step.Take? && !step.Finish?
    ensures QueueConsistent(Next(localIP, s, step).queue, Next(localIP, s, step).handlers)
  {
    hide Find, Inv, Pass;
  }

  /** A change that does not matter leaves the pod's key where it was heading. */
  lemma UnimportantChangeKeepsOutlook(s: Cluster, s': Cluster, key: Key, pod: Pod)
    requires key in s.cache && !Matters(Updated(s.cache[key], pod)) && Outlook(s, key)
    requires s'.cache == s.cache[key := pod] && s'.world == s.world && s'.handlers == s.handlers
    ensures Outlook(s', key)
  {
    hide IsTerminal, Pass;
  }

  lemma ChangeConverges(localIP: string, s: Cluster, key: Key, pod: Option<Pod>, k: Key)
    requires Enabled(s, Change(key, pod)) && KeysSound(s) && OneSlash(k) && Converging(s, k)
    ensures Converging(Next(localIP, s, Change(key, pod)), k)
  {
    hide OneSlash, IsTerminal, Find, PodKey, SplitMetaNamespaceKey, Outlook, Matters, Awaited;
    var s' := Next(localIP, s, Change(key, pod));
    var n := |s.events|;
    assert s'.events[n] == Told(s.cache, key, pod);
    if Announced(s.events, k) {
      var i :| 0 <= i < n && KeyOf(s.events[i].pod) == k && Matters(s.events[i]);
      assert s'.events[i] == s.events[i];
    }
    if k == key {
      assert KeyOf(s'.events[n].pod) == key;
      if !Matters(s'.events[n]) {
        ToldMatters(s.cache, key, pod);
        if Outlook(s, k) {
          UnimportantChangeKeepsOutlook(s, s', key, pod.value);
        }
      }
    } else {
      OutlookDependsOn(s, s', k);
    }
  }

  lemma ToldMatters(cache: map<Key, Pod>, key: Key, pod: Option<Pod>)
    requires (pod.Some? || key in cache) && !Matters(Told(cache, key, pod))
    ensures key in cache && pod.Some? && Told(cache, key, pod) == Updated(cache[key], pod.value)
  {
  }

  /** Two worlds agree on what a pass on a key looks at. */
  ghost predicate SameFor(w: World, w': World, k: Key) {
    && (k in w'.known <==> k in w.known) && (k in w.known ==> w'.known[k] == w.known[k])
    && (k in w'.store <==> k in w.store) && (k in w.store ==> PodsEqual(w'.store[k], w.store[k]))
    && (forall uid :: Scheduled(w'.deletions, k, uid) <==> Scheduled(w.deletions, k, uid))
  }

  lemma InLineSame(w: World, w': World, k: Key, read: Read)
    requires SameFor(w, w', k)
    ensures InLine(w', k, read) <==> InLine(w, k, read)
  {
    hide IsTerminal, Scheduled;
  }

  lemma PassSame(w: World, w': World, k: Key, seen: Read)
    requires SameFor(w, w', k) && OneSlash(k) && ReadsKey(k, seen) && Inv(w.deletions) && Inv(w'.deletions)
    ensures SameFor(Pass(w, k, seen, 0, 0), Pass(w', k, seen, 0, 0), k)
  {
    hide OneSlash, PodKey, SplitMetaNamespaceKey, IsRunning, IsTerminal, EffectivelyEqual, WorkQueue.Insert, Inv,
      Scheduled, DeletionKey;
    PartsOfKey(k);
    PassSchedules(w, k, seen, 0, 0);
    PassSchedules(w', k, seen, 0, 0);
  }

  /** The outlook of a key depends on its own entries only. */
  lemma OutlookDependsOn(s: Cluster, s': Cluster, k: Key)
    requires ReadOf(s'.cache, k) == ReadOf(s.cache, k)
    requires k in s'.handlers <==> k in s.handlers
    requires k in s.handlers ==> s'.handlers[k] == s.handlers[k]
    requires k in s.handlers && s.handlers[k].Looked? ==> OneSlash(k) && ReadsKey(k, s.handlers[k].read)
    requires SameFor(s.world, s'.world, k) && Inv(s.world.deletions) && Inv(s'.world.deletions)
    ensures Outlook(s', k) <==> Outlook(s, k)
  {
    hide OneSlash, InLine, Pass, SameFor, ReadsKey, Inv;
    var read := ReadOf(s.cache, k);
    InLineSame(s.world, s'.world, k, read);
    if k in s.handlers && s.handlers[k].Looked? {
      var seen := s.handlers[k].read;
      PassSame(s.world, s'.world, k, seen);
      InLineSame(Pass(s.world, k, seen, 0, 0), Pass(s'.world, k, seen, 0, 0), k, read);
    }
  }

  lemma StepEventsSound(localIP: string, s: Cluster, step: Step)
    requires KeysSound(s) && EventsSound(s) && Enabled(s, step)
    ensures EventsSound(Next(localIP, s, step))
  {
    hide OneSlash, IsTerminal, Find, PodKey, SplitMetaNamespaceKey, Insert, WorkQueue.Take, Complete, Pass,
        ShouldEnqueue;
    var s' := Next(localIP, s, step);
    match step {
      case Change(key, pod) => ChangeEventsSound(localIP, s, key, pod);
      case Deliver(_, _, _) => DeliverEventsSound(s, s');
      case _ =>
    }
  }

  lemma ChangeEventsSound(localIP: string, s: Cluster, key: Key, pod: Option<Pod>)
    requires KeysSound(s) && EventsSound(s) && Enabled(s, Change(key, pod))
    ensures EventsSound(Next(localIP, s, Change(key, pod)))
  {
    hide OneSlash, PodKey, SplitMetaNamespaceKey, KeyOf, Inv, AddedAfter, DeletedFrom;
    var s' := Next(localIP, s, Change(key, pod));
    forall i | 0 <= i < |s'.events| && s'.events[i].Deleted? && KeyOf(s'.events[i].pod) in s'.cache
      ensures AddedAfter(s'.events, i) {
      ChangeKeepsAdded(localIP, s, key, pod, i);
    }
    forall i | 0 <= i < |s'.events| && KeyOf(s'.events[i].pod) !in s'.cache ensures DeletedFrom(s'.events, i) {
      ChangeKeepsDeleted(localIP, s, key, pod, i);
    }
  }

  lemma ChangeKeepsAdded(localIP: string, s: Cluster, key: Key, pod: Option<Pod>, i: nat)
    requires KeysSound(s) && EventsSound(s) && Enabled(s, Change(key, pod))
    requires var s' := Next(localIP, s, Change(key, pod));
      i < |s'.events| && s'.events[i].Deleted? && KeyOf(s'.events[i].pod) in s'.cache
    ensures AddedAfter(Next(localIP, s, Change(key, pod)).events, i)
  {
    hide OneSlash, PodKey, SplitMetaNamespaceKey, KeyOf, Inv;
    var s' := Next(localIP, s, Change(key, pod));
    var n := |s.events|;
    assert KeyOf(s'.events[n].pod) == key;
    if KeyOf(s'.events[i].pod) in s.cache && i < n {
      AddedStays(s.events, s'.events, i);
    } else if i < n {
      assert s'.events[n] == Added(pod.value);
    }
  }

  lemma ChangeKeepsDeleted(localIP: string, s: Cluster, key: Key, pod: Option<Pod>, i: nat)
    requires KeysSound(s) && EventsSound(s) && Enabled(s, Change(key, pod))
    requires var s' := Next(localIP, s, Change(key, pod));
      i < |s'.events| && KeyOf(s'.events[i].pod) !in s'.cache
    ensures DeletedFrom(Next(localIP, s, Change(key, pod)).events, i)
  {
    hide OneSlash, PodKey, SplitMetaNamespaceKey, KeyOf, Inv;
    var s' := Next(localIP, s, Change(key, pod));
    var n := |s.events|;
    assert KeyOf(s'.events[n].pod) == key;
    if i < n && KeyOf(s.events[i].pod) !in s.cache {
      DeletedStays(s.events, s'.events, i);
    } else {
      assert s'.events[n].Deleted?;
    }
  }

  lemma AddedStays(events: seq<Event>, more: seq<Event>, i: nat)
    requires i < |events| <= |more| && (forall j :: 0 <= j < |events| ==> more[j] == events[j])
    requires AddedAfter(events, i)
    ensures AddedAfter(more, i)
  {
    hide KeyOf;
    var j :| i < j < |events| && events[j].Added? && KeyOf(events[j].pod) == KeyOf(events[i].pod);
    assert more[j] == events[j];
  }

  lemma DeletedStays(events: seq<Event>, more: seq<Event>, i: nat)
    requires i < |events| <= |more| && (forall j :: 0 <= j < |events| ==> more[j] == events[j])
    requires DeletedFrom(events, i)
    ensures DeletedFrom(more, i)
  {
    hide KeyOf;
    var j :| i <= j < |events| && events[j].Deleted? && KeyOf(events[j].pod) == KeyOf(events[i].pod);
    assert more[j] == events[j];
  }

  lemma DeliverEventsSound(s: Cluster, s': Cluster)
    requires EventsSound(s) && s.events != [] && s'.events == s.events[1..] && s'.cache == s.cache
    ensures EventsSound(s')
  {
    hide KeyOf;
    forall i | 0 <= i < |s'.events| && s'.events[i].Deleted? && KeyOf(s'.events[i].pod) in s'.cache
      ensures AddedAfter(s'.events, i) {
      assert s'.events[i] == s.events[i + 1];
      var j :| i + 1 < j < |s.events| && s.events[j].Added? && KeyOf(s.events[j].pod) == KeyOf(s.events[i + 1].pod);
      assert s'.events[j - 1] == s.events[j];
    }
    forall i | 0 <= i < |s'.events| && KeyOf(s'.events[i].pod) !in s'.cache ensures DeletedFrom(s'.events, i) {
      assert s'.events[i] == s.events[i + 1] && DeletedFrom(s.events, i + 1);
      var j :| i + 1 <= j < |s.events| && s.events[j].Deleted? && KeyOf(s.events[j].pod) == KeyOf(s.events[i + 1].pod);
      assert s'.events[j - 1] == s.events[j];
    }
  }

  /** If what the cache has of a pod is not what an event about it says, a later event is to come. */
  lemma MoreToCome(s: Cluster, k: Key)
    requires EventsSound(s) && s.events != [] && KeyOf(s.events[0].pod) == k
    requires if s.events[0].Deleted? then k in s.cache else k !in s.cache
    ensures Announced(s.events[1..], k)
  {
    hide KeyOf, Matters, Announced;
    if s.events[0].Deleted? {
      assert AddedAfter(s.events, 0);
      var j :| 0 < j < |s.events| && s.events[j].Added? && KeyOf(s.events[j].pod) == KeyOf(s.events[0].pod);
      LaterIsAnnounced(s.events, j);
    } else {
      assert DeletedFrom(s.events, 0);
      var j :| 0 <= j < |s.events| && s.events[j].Deleted? && KeyOf(s.events[j].pod) == KeyOf(s.events[0].pod);
      LaterIsAnnounced(s.events, j);
    }
  }

  lemma LaterIsAnnounced(events: seq<Event>, j: nat)
    requires 0 < j < |events| && (events[j].Added? || events[j].Deleted?)
    ensures Announced(events[1..], KeyOf(events[j].pod))
  {
    hide KeyOf;
    assert events[1..][j - 1] == events[j];
  }

  lemma StaysAnnounced(events: seq<Event>, k: Key)
    requires events != [] && Announced(events, k) && !(KeyOf(events[0].pod) == k && Matters(events[0]))
    ensures Announced(events[1..], k)
  {
    hide KeyOf, Matters;
    var i :| 0 <= i < |events| && KeyOf(events[i].pod) == k && Matters(events[i]);
    assert events[1..][i - 1] == events[i];
  }

  /** An event that enqueues leaves its key announced again or awaited and known. */
  lemma EnqueuedConverges(localIP: string, s: Cluster, heard: bool, now: Time, limiter: Duration)
    requires Enabled(s, Deliver(heard, now, limiter)) && QueueConsistent(s.queue, s.handlers) && EventsSound(s)
    requires Enqueues(s.events[0], heard)
    ensures Converging(Next(localIP, s, Deliver(heard, now, limiter)), KeyOf(s.events[0].pod))
  {
    hide Find, Outlook, Inv, Insert, KeyOf, ShouldEnqueue, QueueConsistent, Awaited, Announced, EventsSound;
    var k := KeyOf(s.events[0].pod);
    InsertAwaits(s.queue, s.handlers, k, now, limiter);
    if s.events[0].Deleted? && k in s.cache {
      MoreToCome(s, k);
    }
  }

  /** An event that does not enqueue, if it is careful. */
  lemma MuteConverges(localIP: string, s: Cluster, heard: bool, now: Time, limiter: Duration)
    requires Enabled(s, Deliver(heard, now, limiter)) && EventsSound(s) && !Enqueues(s.events[0], heard)
    requires Careful(s, Deliver(heard, now, limiter), KeyOf(s.events[0].pod)) && Converging(s, KeyOf(s.events[0].pod))
    ensures Converging(Next(localIP, s, Deliver(heard, now, limiter)), KeyOf(s.events[0].pod))
  {
    hide Find, Insert, KeyOf, ShouldEnqueue, Revives, Awaited, Announced, EventsSound, InLine, Pass;
    var e, k := s.events[0], KeyOf(s.events[0].pod);
    if if e.Deleted? then k in s.cache else k !in s.cache {
      MoreToCome(s, k);
    } else if !Matters(e) && Announced(s.events, k) {
      StaysAnnounced(s.events, k);
    }
  }

  lemma DeliverConverges(localIP: string, s: Cluster, heard: bool, now: Time, limiter: Duration, k: Key)
    requires Enabled(s, Deliver(heard, now, limiter)) && QueueConsistent(s.queue, s.handlers) && EventsSound(s)
    requires KeysSound(s) && OneSlash(k) && Converging(s, k) && Careful(s, Deliver(heard, now, limiter), k)
    ensures Converging(Next(localIP, s, Deliver(heard, now, limiter)), k)
  {
    hide OneSlash, Find, Outlook, Inv, Insert, KeyOf, ShouldEnqueue, Revives, QueueConsistent, Awaited, Announced,
        EventsSound;
    if KeyOf(s.events[0].pod) == k {
      if Enqueues(s.events[0], heard) {
        EnqueuedConverges(localIP, s, heard, now, limiter);
      } else {
        MuteConverges(localIP, s, heard, now, limiter);
      }
    } else {
      InsertAwaits(s.queue, s.handlers, KeyOf(s.events[0].pod), now, limiter);
      if Announced(s.events, k) {
        StaysAnnounced(s.events, k);
      }
      OutlookDependsOn(s, Next(localIP, s, Deliver(heard, now, limiter)), k);
    }
  }

  /** A pass touches nothing but its own key. */
  lemma PassTouchesOnly(w: World, key: Key, read: Read, now: Time, limiter: Duration, k: Key)
    requires OneSlash(key) && ReadsKey(key, read) && k != key && OneSlash(k) && Inv(w.deletions)
    ensures SameFor(w, Pass(w, key, read, now, limiter), k) && Inv(Pass(w, key, read, now, limiter).deletions)
  {
    hide OneSlash, PodKey, SplitMetaNamespaceKey, IsRunning, WorkQueue.Insert, Inv, Scheduled, DeletionKey;
    PartsOfKey(key);
    PassSchedules(w, key, read, now, limiter);
    if read.Cached? {
      forall uid ensures DeletionKey(k, uid) != DeletionKey(key, read.pod.uid) {
        DeletionKeysDiffer(k, uid, key, read.pod.uid);
      }
    }
  }

  /** When a pass is made does not matter to the store, to what is known and to what is scheduled. */
  lemma PassAtAnyTime(w: World, key: Key, read: Read, now: Time, limiter: Duration)
    requires OneSlash(key) && ReadsKey(key, read) && Inv(w.deletions)
    ensures Pass(w, key, read, now, limiter).store == Pass(w, key, read, 0, 0).store
    ensures Pass(w, key, read, now, limiter).known == Pass(w, key, read, 0, 0).known
    ensures forall k, uid :: Scheduled(Pass(w, key, read, now, limiter).deletions, k, uid) <==>
      Scheduled(Pass(w, key, read, 0, 0).deletions, k, uid)
  {
    hide OneSlash, PodKey, SplitMetaNamespaceKey, IsRunning, IsTerminal, WorkQueue.Insert, Inv, Scheduled, DeletionKey;
    PassSchedules(w, key, read, now, limiter);
    PassSchedules(w, key, read, 0, 0);
  }

  /** A pass on what is cached, if a cached pod is known, brings the provider in line with it. */
  lemma PassBringsInLine(w: World, key: Key, cached: Read)
    requires OneSlash(key) && ReadsKey(key, cached) && Linked(w) && (cached.Cached? ==> key in w.known)
    ensures InLine(Pass(w, key, cached, 0, 0), key, cached)
  {
    hide OneSlash, PodKey, SplitMetaNamespaceKey, IsRunning, WorkQueue.Insert, Inv, Scheduled, DeletionKey;
    PartsOfKey(key);
    PassSchedules(w, key, cached, 0, 0);
  }

  /** A pass stops knowing a pod exactly if it saw none and the provider had one. */
  lemma PassKnows(w: World, key: Key, seen: Read, now: Time, limiter: Duration)
    requires OneSlash(key) && ReadsKey(key, seen)
    ensures key in Pass(w, key, seen, now, limiter).known <==> key in w.known && !(seen.NotCached? && key in w.store)
  {
    hide OneSlash, PodKey, SplitMetaNamespaceKey, IsRunning, WorkQueue.Insert;
    PartsOfKey(key);
  }

  lemma InLineOfParts(a: World, b: World, key: Key, read: Read)
    requires a.store == b.store && a.known == b.known
    requires forall k, uid :: Scheduled(a.deletions, k, uid) <==> Scheduled(b.deletions, k, uid)
    ensures InLine(a, key, read) <==> InLine(b, key, read)
  {
    hide Scheduled;
  }

  /** Of a key that converges, an act keeps it converging exactly if it does not drop the pod that is cached. */
  lemma ActKeepsConvergingIff(localIP: string, s: Cluster, key: Key, now: Time, limiter: Duration)
    requires Enabled(s, Act(key, now, limiter)) && KeysSound(s) && OneSlash(key) && Converging(s, key)
    ensures Converging(Next(localIP, s, Act(key, now, limiter)), key) <==> !Dropping(s, key)
  {
    hide OneSlash, IsTerminal, Find, PodKey, SplitMetaNamespaceKey, Pass, Mirrored, Announced, Awaited;
    var seen := s.handlers[key].read;
    PassKnows(s.world, key, seen, now, limiter);
    PassAtAnyTime(s.world, key, seen, now, limiter);
    InLineOfParts(Pass(s.world, key, seen, now, limiter), Pass(s.world, key, seen, 0, 0), key, ReadOf(s.cache, key));
  }

  lemma ActConverges(localIP: string, s: Cluster, key: Key, now: Time, limiter: Duration, k: Key)
    requires Enabled(s, Act(key, now, limiter)) && KeysSound(s) && OneSlash(key) && OneSlash(k) && Converging(s, k)
    requires Careful(s, Act(key, now, limiter), k)
    ensures Converging(Next(localIP, s, Act(key, now, limiter)), k)
  {
    hide OneSlash, IsTerminal, Find, PodKey, SplitMetaNamespaceKey, Pass, Outlook, Announced, Awaited;
    if k == key {
      ActKeepsConvergingIff(localIP, s, key, now, limiter);
    } else {
      PassTouchesOnly(s.world, key, s.handlers[key].read, now, limiter, k);
      OutlookDependsOn(s, Next(localIP, s, Act(key, now, limiter)), k);
    }
  }

  lemma QueueStepConverges(localIP: string, s: Cluster, step: Step, k: Key)
    requires QueueConsistent(s.queue, s.handlers) && KeysSound(s) && Linked(s.world) && Enabled(s, step) &&
        Converging(s, k)
    requires OneSlash(k) && (step.Take? || step.Look? || step.Finish?) && Careful(s, step, k)
    ensures Converging(Next(localIP, s, step), k)
  {
    hide OneSlash, IsTerminal, Find, Inv, WorkQueue.Take, Complete, InLine, Announced, Awaited, QueueConsistent,
        Linked, Pass;
    match step {
      case Take(_) => TakeAwaits(s.queue, s.handlers); FrontAwaited(s.queue);
      case Look(key, _) =>
        if key == k && (k in s.cache ==> k in s.world.known) {
          PassBringsInLine(s.world, k, ReadOf(s.cache, k));
        }
      case Finish(key, verdict, measured, now, limiter) =>
        FinishAwaits(s.queue, s.handlers, key, s.handlers[key].failed, verdict, measured, now, limiter);
    }
  }

  lemma FrontAwaited(q: State)
    requires q.items != [] && Listed(q.items, q.items[0].key)
    ensures Awaited(q, q.items[0].key)
  {
  }

  lemma OutsideStepConverges(localIP: string, s: Cluster, step: Step, k: Key)
    requires Enabled(s, step) && KeysSound(s) && OneSlash(k) && Converging(s, k) && (step.Report? || step.DeleteStray?)
    ensures Converging(Next(localIP, s, step), k)
  {
    hide OneSlash, IsTerminal, Find, Announced, Awaited, Outlook;
    var s' := Next(localIP, s, step);
    if step.DeleteStray? && step.podKey == k {
      if Outlook(s, k) {
        StrayLeavesInLine(s, s', k);
      }
    } else {
      OutlookDependsOn(s, s', k);
    }
  }

  /** Deleting the provider's pod of a key that is neither known nor cached keeps it in line. */
  lemma StrayLeavesInLine(s: Cluster, s': Cluster, k: Key)
    requires k !in s.cache && k !in s.world.known && KeysSound(s) && OneSlash(k) && Outlook(s, k)
    requires s' == s.(world := s.world.(store := s.world.store - {k}))
    ensures Outlook(s', k)
  {
    hide OneSlash, PodKey, SplitMetaNamespaceKey, IsRunning, WorkQueue.Insert;
    PartsOfKey(k);
  }

  lemma DeletionsAreQueue(w: World)
    requires Linked(w)
    ensures Inv(w.deletions)
  {
  }

  lemma StepStaysSound(localIP: string, s: Cluster, step: Step)
    requires Sound(s) && Enabled(s, step)
    ensures Sound(Next(localIP, s, step))
  {
    hide QueueConsistent, KeysSound, Linked, Enabled, Next, OneSlash, EventsSound, Inv;
    StepQueueConsistent(localIP, s, step);
    if step.Act? {
      assert OneSlash(step.key) by { ActedIsHandled(s, step); }
    }
    StepLinked(localIP, s, step);
    DeletionsAreQueue(Next(localIP, s, step).world);
    StepKeysSound(localIP, s, step);
    StepEventsSound(localIP, s, step);
  }

  lemma ActedIsHandled(s: Cluster, step: Step)
    requires QueueConsistent(s.queue, s.handlers) && KeysSound(s) && Enabled(s, step) && step.Act?
    ensures OneSlash(step.key)
  {
    HandledIsPodKey(s, step.key);
  }

  lemma StepConverges(localIP: string, s: Cluster, step: Step, k: Key)
    requires Sound(s) && OneSlash(k) && Converging(s, k) && Enabled(s, step) && Careful(s, step, k)
    ensures Converging(Next(localIP, s, step), k)
  {
    hide QueueConsistent, KeysSound, Linked, Converging, Enabled, Next, OneSlash, EventsSound, Careful;
    match step {
      case Change(key, pod) => ChangeConverges(localIP, s, key, pod, k);
      case Deliver(heard, now, limiter) => DeliverConverges(localIP, s, heard, now, limiter, k);
      case Act(key, now, limiter) =>
        ActedIsHandled(s, step);
        ActConverges(localIP, s, key, now, limiter, k);
      case Report(_) => OutsideStepConverges(localIP, s, step, k);
      case DeleteStray(_) => OutsideStepConverges(localIP, s, step, k);
      case _ => QueueStepConverges(localIP, s, step, k);
    }
  }

  lemma {:induction false} AlwaysSound(localIP: string, s: Cluster, steps: seq<Step>)
    requires Sound(s) && Admissible(localIP, s, steps)
    ensures Sound(Exec(localIP, s, steps))
    decreases |steps|
  {
    hide Sound;
    if steps != [] {
      StepStaysSound(localIP, s, steps[0]);
      AlwaysSound(localIP, Next(localIP, s, steps[0]), steps[1..]);
    }
  }

  /** In every run that is careful with a key, an event that matters is on its way or the key is on course. */
  lemma {:induction false} CarefulRunConverges(localIP: string, s: Cluster, steps: seq<Step>, k: Key)
    requires Sound(s) && OneSlash(k) && Converging(s, k)
    requires Admissible(localIP, s, steps) && CarefulRun(localIP, s, steps, k)
    ensures Sound(Exec(localIP, s, steps)) && Converging(Exec(localIP, s, steps), k)
    decreases |steps|
  {
    hide Sound, Converging, OneSlash, Careful;
    if steps != [] {
      StepStaysSound(localIP, s, steps[0]);
      StepConverges(localIP, s, steps[0], k);
      CarefulRunConverges(localIP, Next(localIP, s, steps[0]), steps[1..], k);
    }
  }

  lemma InitiallyConverging(key: Key)
    ensures Sound(INITIAL) && Converging(INITIAL, key)
  {
  }

  // ---------------------------------------------------------------- main results

  /**
   What reconciling is for, field by field: the provider stores no pod the cache does not have, a
   cached pod is known, and stored with its containers and updatable fields unless it is Failed,
   Succeeded or marked for deletion, and in the last case its force deletion was scheduled.
   */
  predicate Reconciled(s: Cluster, key: Key) {
    if key !in s.cache then key !in s.world.store
    else
      var pod, store := s.cache[key], s.world.store;
      && key in s.world.known
      && if pod.deletion.Some? then
           || Listed(s.world.deletions.items, DeletionKey(key, pod.uid))
           || DeletionKey(key, pod.uid) in s.world.deletions.processing
         else
           pod.status.phase != PodModel.Failed && pod.status.phase != PodModel.Succeeded ==>
             key in store && store[key].containers == pod.containers && store[key].updatable == pod.updatable
  }

  /**
   Reconcile convergence over runs: in every run in which events of a key that matter enqueue it, no
   pass drops its pod, and its failures are retried, the key is reconciled, or an event that matters
   is on its way, or the key waits or is redirtied, or a handler has yet to read, to act on what it
   read, or to be retried.
   */
  lemma ReconcileConverges(localIP: string, steps: seq<Step>, key: Key)
    requires OneSlash(key) && Admissible(localIP, INITIAL, steps) && PromptRun(localIP, INITIAL, steps, key)
    ensures var s := Exec(localIP, INITIAL, steps);
      || Reconciled(s, key)
      || (exists i :: 0 <= i < |s.events| && KeyOf(s.events[i].pod) == key && Matters(s.events[i]))
      || Listed(s.queue.items, key)
      || (key in s.queue.processing && s.queue.processing[key].redirtiedAt != ZERO_TIME)
      || (key in s.handlers && (s.handlers[key] == Done(true) || !s.handlers[key].Done?))
  {
    hide OneSlash, Find, Sound, Pass, Prompt, Careful;
    PromptRunIsCareful(localIP, INITIAL, steps, key);
    InitiallyConverging(key);
    CarefulRunConverges(localIP, INITIAL, steps, key);
  }

  /** When no event, item or handler is left after such a run, every key is reconciled. */
  lemma AtRestMirrored(localIP: string, steps: seq<Step>, key: Key)
    requires OneSlash(key) && Admissible(localIP, INITIAL, steps) && PromptRun(localIP, INITIAL, steps, key)
    requires var s := Exec(localIP, INITIAL, steps); s.events == [] && s.queue == EMPTY
    ensures Reconciled(Exec(localIP, INITIAL, steps), key)
  {
    hide OneSlash, Inv, Linked, Prompt, Careful;
    PromptRunIsCareful(localIP, INITIAL, steps, key);
    InitiallyConverging(key);
    CarefulRunConverges(localIP, INITIAL, steps, key);
    assert key !in Exec(localIP, INITIAL, steps).handlers;
  }

  /**
   What an event does: its key is awaited if the node acts on it and it tells of a new pod, a removed
   one, or other containers, updatable fields or deletion; otherwise the queue stays. A pod added or
   updated is known in any case, a removed one no longer if the node acts on it.
   */
  lemma HeardEventIsQueued(localIP: string, s: Cluster, heard: bool, now: Time, limiter: Duration)
    requires Sound(s) && Enabled(s, Deliver(heard, now, limiter))
    ensures var e, q := s.events[0], Next(localIP, s, Deliver(heard, now, limiter)).queue;
      var tells := !e.Updated? || e.was.containers != e.pod.containers || e.was.updatable != e.pod.updatable
        || e.was.deletion != e.pod.deletion;
      if heard && tells then
        Listed(q.items, KeyOf(e.pod)) || (KeyOf(e.pod) in q.processing && q.processing[KeyOf(e.pod)].redirtiedAt != 0)
      else q == s.queue
    ensures var e, w := s.events[0], Next(localIP, s, Deliver(heard, now, limiter)).world; var key := KeyOf(e.pod);
      && w.store == s.world.store && w.deletions == s.world.deletions
      && (key in w.known <==> if e.Deleted? then key in s.world.known && !heard else true)
      && (key in w.known ==> w.known[key] == if key in s.world.known then s.world.known[key] else None)
      && (forall k :: k != key ==> (k in w.known <==> k in s.world.known))
      && (forall k :: k != key && k in w.known ==> w.known[k] == s.world.known[k])
  {
    hide Find, Insert, Inv, KeyOf, KeysSound, EventsSound, Linked;
    InsertAwaits(s.queue, s.handlers, KeyOf(s.events[0].pod), now, limiter);
  }

  /**
   An event that matters may be left alone, when no other is to come and nobody is at work on its
   key, exactly if the provider already has what the cache asks for.
   */
  lemma IdleDeliveryIsCarefulIff(s: Cluster, heard: bool, now: Time, limiter: Duration)
    requires Sound(s) && Enabled(s, Deliver(heard, now, limiter))
    requires Matters(s.events[0]) && !Enqueues(s.events[0], heard)
    requires var key := KeyOf(s.events[0].pod);
      !Announced(s.events[1..], key) && !Awaited(s.queue, key) && key !in s.handlers
    ensures var key := KeyOf(s.events[0].pod);
      Careful(s, Deliver(heard, now, limiter), key) <==>
        if key in s.cache then
          if s.cache[key].deletion.Some? then Scheduled(s.world.deletions, key, s.cache[key].uid)
          else !IsTerminal(s.cache[key]) ==> key in s.world.store && PodsEqual(s.world.store[key], s.cache[key])
        else key !in s.world.store
  {
    hide KeyOf, Announced, Awaited, EventsSound, Matters, PodsEqual, IsTerminal, Linked, QueueConsistent, KeysSound;
    var key := KeyOf(s.events[0].pod);
    if if s.events[0].Deleted? then key in s.cache else key !in s.cache {
      MoreToCome(s, key);
    }
  }
}
