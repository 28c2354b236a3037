/**
 How a pod can get lost to the provider: what every step that is not careful leads to, and a run in
 which a pass that saw no pod acts after the pod was created again, and drops the new one.
 */
module ReconcileLoss {
  import opened Wrappers
  import opened WorkQueue
  import opened Codecs
  import opened PodModel
  import opened StatusFold
  import opened Reconcile
  import opened ReconcileRuns

  lemma Prepend(localIP: string, s: Cluster, step: ReconcileRuns.Step, rest: seq<ReconcileRuns.Step>)
    requires ReconcileRuns.Enabled(s, step)
    requires ReconcileRuns.Admissible(localIP, ReconcileRuns.Next(localIP, s, step), rest)
    ensures ReconcileRuns.Admissible(localIP, s, [step] + rest)
    ensures ReconcileRuns.Exec(localIP, s, [step] + rest)
         == ReconcileRuns.Exec(localIP, ReconcileRuns.Next(localIP, s, step), rest)
  {
    hide ReconcileRuns.Enabled, ReconcileRuns.Next;
    assert ([step] + rest)[1..] == rest;
  }

  /** A pod under its own key that is neither deleted nor ended. */
  predicate LivePod(key: Key, pod: Pod) {
    && OneSlash(key) && KeyOf(pod) == key && ReadsKey(key, Cached(pod))
    && pod.deletion.None? && !IsTerminal(pod)
  }

  function ItemOf(key: Key): Item {
    Fresh(key, true, None, 1, 0)
  }

  function Rest(cache: map<Key, Pod>, known: map<Key, Option<Pod>>, store: Pods): Cluster {
    Cluster(cache, [], World(known, store, EMPTY), EMPTY, map[])
  }

  function FinishOf(key: Key): ReconcileRuns.Step {
    ReconcileRuns.Finish(key, GiveUp, 1, 1, 0)
  }

  lemma PassOnLive(w: World, key: Key, pod: Pod)
    requires LivePod(key, pod)
    ensures Pass(w, key, Cached(pod), 1, 0) ==
      if ActsOn(w, pod, key) then w.(known := w.known[key := Some(pod)], store := Stored(w.store, pod)) else w
  {
    hide OneSlash, PodKey, SplitMetaNamespaceKey, IsRunning, IsTerminal;
    PartsOfKey(key);
  }

  lemma PassOnNone(w: World, key: Key)
    requires OneSlash(key)
    ensures Pass(w, key, NotCached, 1, 0) ==
      if key in w.store then w.(store := w.store - {key}, known := w.known - {key}) else w
  {
    hide OneSlash, PodKey, SplitMetaNamespaceKey;
    PartsOfKey(key);
  }

  /** A waiting key is taken, handled on what the cache has, and finished. */
  lemma WholePass(localIP: string, s: Cluster, key: Key, it: Item, pod: Pod) returns (steps: seq<ReconcileRuns.Step>)
    requires LivePod(key, pod) && s.queue == State([it], map[]) && it.key == key && it.planned <= 1
    requires it.redirtiedAt == ZERO_TIME && !it.forget
    requires s.handlers == map[] && s.cache == map[key := pod]
    ensures ReconcileRuns.Admissible(localIP, s, steps)
    ensures ReconcileRuns.Exec(localIP, s, steps)
         == s.(queue := EMPTY, world := Pass(s.world, key, Cached(pod), 1, 0))
  {
    hide Pass, LivePod;
    var taken := State([], map[key := it]);
    var s1 := s.(queue := taken, handlers := map[key := ReconcileRuns.Started]);
    var s2 := s1.(handlers := map[key := Looked(Cached(pod))]);
    var s3 := s1.(world := Pass(s.world, key, Cached(pod), 1, 0), handlers := map[key := ReconcileRuns.Done(false)]);
    var s4 := s.(queue := EMPTY, world := Pass(s.world, key, Cached(pod), 1, 0));
    assert ReconcileRuns.Next(localIP, s, ReconcileRuns.Take(1)) == s1;
    assert ReconcileRuns.Next(localIP, s1, Look(key, false)) == s2;
    assert ReconcileRuns.Next(localIP, s2, Act(key, 1, 0)) == s3;
    assert taken.processing - {key} == map[] && s3.handlers - {key} == map[];
    assert ReconcileRuns.Next(localIP, s3, FinishOf(key)) == s4;
    steps := [];
    Prepend(localIP, s3, FinishOf(key), steps); steps := [FinishOf(key)] + steps;
    Prepend(localIP, s2, Act(key, 1, 0), steps); steps := [Act(key, 1, 0)] + steps;
    Prepend(localIP, s1, Look(key, false), steps); steps := [Look(key, false)] + steps;
    Prepend(localIP, s, ReconcileRuns.Take(1), steps); steps := [ReconcileRuns.Take(1)] + steps;
  }

  /** A pod is created, told, known, and made in the provider. */
  lemma Created(localIP: string, key: Key, pod: Pod) returns (steps: seq<ReconcileRuns.Step>)
    requires LivePod(key, pod)
    ensures ReconcileRuns.Admissible(localIP, ReconcileRuns.INITIAL, steps)
    ensures ReconcileRuns.Exec(localIP, ReconcileRuns.INITIAL, steps)
         == Rest(map[key := pod], map[key := Some(pod)], map[key := pod])
  {
    var s0 := ReconcileRuns.INITIAL;
    var s1 := ReconcileRuns.Next(localIP, s0, Change(key, Some(pod)));
    var s2 := Rest(map[key := pod], map[key := None], map[]).(queue := State([ItemOf(key)], map[]));
    assert ReconcileRuns.Next(localIP, s1, Deliver(true, 1, 0)) == s2;
    PassOnLive(s2.world, key, pod);
    steps := WholePass(localIP, s2, key, ItemOf(key), pod);
    hide LivePod, Pass, Fresh;
    assert s2.(queue := EMPTY, world := Pass(s2.world, key, Cached(pod), 1, 0))
        == Rest(map[key := pod], map[key := Some(pod)], map[key := pod]);
    Prepend(localIP, s1, Deliver(true, 1, 0), steps); steps := [Deliver(true, 1, 0)] + steps;
    Prepend(localIP, s0, Change(key, Some(pod)), steps); steps := [Change(key, Some(pod))] + steps;
  }

  /** The pod is deleted, told, and the handler has read that there is none. */
  lemma DeletionRead(localIP: string, key: Key, pod: Pod, rest: seq<ReconcileRuns.Step>)
    returns (steps: seq<ReconcileRuns.Step>)
    requires LivePod(key, pod)
    requires ReconcileRuns.Admissible(localIP, NoneRead(key, pod), rest)
    ensures var s := Rest(map[key := pod], map[key := Some(pod)], map[key := pod]);
      && ReconcileRuns.Admissible(localIP, s, steps)
      && ReconcileRuns.Exec(localIP, s, steps) == ReconcileRuns.Exec(localIP, NoneRead(key, pod), rest)
  {
    var s0 := Rest(map[key := pod], map[key := Some(pod)], map[key := pod]);
    var s1 := s0.(cache := map[], events := [Deleted(pod)]);
    var s2 := Rest(map[], map[], map[key := pod]).(queue := State([ItemOf(key)], map[]));
    var s3 := s2.(queue := State([], map[key := ItemOf(key)]), handlers := map[key := ReconcileRuns.Started]);
    assert s0.cache - {key} == map[] && s0.world.known - {key} == map[];
    assert ReconcileRuns.Next(localIP, s0, Change(key, None)) == s1;
    assert ReconcileRuns.Next(localIP, s1, Deliver(true, 1, 0)) == s2;
    assert ReconcileRuns.Next(localIP, s2, ReconcileRuns.Take(1)) == s3;
    assert ReconcileRuns.Next(localIP, s3, Look(key, false)) == NoneRead(key, pod);
    hide LivePod, Fresh;
    Prepend(localIP, s3, Look(key, false), rest); steps := [Look(key, false)] + rest;
    Prepend(localIP, s2, ReconcileRuns.Take(1), steps); steps := [ReconcileRuns.Take(1)] + steps;
    Prepend(localIP, s1, Deliver(true, 1, 0), steps); steps := [Deliver(true, 1, 0)] + steps;
    Prepend(localIP, s0, Change(key, None), steps); steps := [Change(key, None)] + steps;
  }

  function NoneRead(key: Key, pod: Pod): Cluster {
    Rest(map[], map[], map[key := pod]).(queue := State([], map[key := ItemOf(key)]),
                                             handlers := map[key := Looked(NotCached)])
  }

  function Again(key: Key): Item {
    RedirtiedItem(Redirty(ItemOf(key), 1, true), 1, 1, 0)
  }

  /** The handler has acted on its read, after the pod was created again and told. */
  function Acted(key: Key, second: Pod): Cluster {
    Rest(map[key := second], map[], map[]).(queue := State([], map[key := Redirty(ItemOf(key), 1, true)]),
                                                    handlers := map[key := ReconcileRuns.Done(false)])
  }

  lemma ActedFinishes(localIP: string, key: Key, second: Pod, rest: seq<ReconcileRuns.Step>)
    requires ReconcileRuns.Admissible(localIP, Dropped(key, second), rest)
    ensures ReconcileRuns.Admissible(localIP, Acted(key, second), [FinishOf(key)] + rest)
    ensures ReconcileRuns.Exec(localIP, Acted(key, second), [FinishOf(key)] + rest)
         == ReconcileRuns.Exec(localIP, Dropped(key, second), rest)
  {
    var s := Acted(key, second);
    assert s.queue.processing - {key} == map[] && s.handlers - {key} == map[];
    assert Place([], Again(key)) == [Again(key)];
    assert ReconcileRuns.Next(localIP, s, FinishOf(key)) == Dropped(key, second);
    Prepend(localIP, s, FinishOf(key), rest);
  }

  /** The pod is cached, told and known again, and the handler still holds that there is none. */
  function ToldAgain(key: Key, first: Pod, second: Pod): Cluster {
    NoneRead(key, first).(cache := map[key := second], world := World(map[key := None], map[key := first], EMPTY),
                          queue := State([], map[key := Redirty(ItemOf(key), 1, true)]))
  }

  lemma ActsOnNone(localIP: string, key: Key, first: Pod, second: Pod)
    requires LivePod(key, first) && LivePod(key, second)
    ensures ReconcileRuns.Next(localIP, ToldAgain(key, first, second), Act(key, 1, 0)) == Acted(key, second)
  {
    hide LivePod, Fresh;
    var s := ToldAgain(key, first, second);
    assert OneSlash(key) by { IsPodKey(key, first); }
    PassOnNone(s.world, key);
    hide Pass;
    assert s.world.store - {key} == map[] && s.world.known - {key} == map[];
  }

  lemma IsPodKey(key: Key, pod: Pod)
    requires LivePod(key, pod)
    ensures OneSlash(key)
  {
  }

  /** The pod is created again and told while that handler acts; the key waits once more. */
  lemma Recreated(localIP: string, key: Key, first: Pod, second: Pod, rest: seq<ReconcileRuns.Step>)
    returns (steps: seq<ReconcileRuns.Step>)
    requires LivePod(key, first) && LivePod(key, second)
    requires ReconcileRuns.Admissible(localIP, Acted(key, second), rest)
    ensures ReconcileRuns.Admissible(localIP, NoneRead(key, first), steps)
    ensures ReconcileRuns.Exec(localIP, NoneRead(key, first), steps)
         == ReconcileRuns.Exec(localIP, Acted(key, second), rest)
  {
    var s0 := NoneRead(key, first);
    var s1 := s0.(cache := map[key := second], events := [Added(second)]);
    var s2 := ToldAgain(key, first, second);
    assert ReconcileRuns.Next(localIP, s0, Change(key, Some(second))) == s1;
    assert ReconcileRuns.Next(localIP, s1, Deliver(true, 1, 0)) == s2;
    ActsOnNone(localIP, key, first, second);
    hide LivePod, Fresh, Pass;
    Prepend(localIP, s2, Act(key, 1, 0), rest); steps := [Act(key, 1, 0)] + rest;
    Prepend(localIP, s1, Deliver(true, 1, 0), steps); steps := [Deliver(true, 1, 0)] + steps;
    Prepend(localIP, s0, Change(key, Some(second)), steps); steps := [Change(key, Some(second))] + steps;
  }

  function Dropped(key: Key, pod: Pod): Cluster {
    Rest(map[key := pod], map[], map[]).(queue := State([Again(key)], map[]))
  }

  /**
   A recreated pod can be lost: for any two live pods of one key, a pass that saw the first one gone
   can act after the second was added and told. It drops what is known about the second; the pass
   that follows finds the pod unknown and does nothing. Everything comes to rest, and the provider
   does not have the pod that is in the cache.
   */
  lemma RecreationDuringPassLosesPod(localIP: string, key: Key, first: Pod, second: Pod)
    returns (steps: seq<ReconcileRuns.Step>)
    requires LivePod(key, first) && LivePod(key, second)
    ensures ReconcileRuns.Admissible(localIP, ReconcileRuns.INITIAL, steps)
    ensures var s := ReconcileRuns.Exec(localIP, ReconcileRuns.INITIAL, steps);
      && s.events == [] && s.queue == EMPTY
      && s.cache == map[key := second] && key !in s.world.known && key !in s.world.store
  {
    var s0 := Dropped(key, second);
    var last := WholePass(localIP, s0, key, Again(key), second);
    PassOnLive(s0.world, key, second);
    ActedFinishes(localIP, key, second, last);
    var third := Recreated(localIP, key, first, second, [FinishOf(key)] + last);
    var back := DeletionRead(localIP, key, first, third);
    var made := Created(localIP, key, first);
    hide LivePod, Pass, Fresh;
    Joined(localIP, ReconcileRuns.INITIAL, made, back);
    steps := made + back;
  }

  lemma {:induction false} Joined(localIP: string, s: Cluster, a: seq<ReconcileRuns.Step>, b: seq<ReconcileRuns.Step>)
    requires ReconcileRuns.Admissible(localIP, s, a)
    requires ReconcileRuns.Admissible(localIP, ReconcileRuns.Exec(localIP, s, a), b)
    ensures ReconcileRuns.Admissible(localIP, s, a + b)
    ensures ReconcileRuns.Exec(localIP, s, a + b) == ReconcileRuns.Exec(localIP, ReconcileRuns.Exec(localIP, s, a), b)
    decreases |a|
  {
    hide ReconcileRuns.Enabled, ReconcileRuns.Next;
    assert a == [] ==> a + b == b;
    if a != [] {
      Joined(localIP, ReconcileRuns.Next(localIP, s, a[0]), a[1..], b);
      Prepend(localIP, s, a[0], a[1..] + b);
      assert a + b == [a[0]] + (a[1..] + b);
    }
  }

  // ---------------------------------------------------------------- careless means lost

  /** Nothing is told about a key, and neither a waiting item nor its handler will bring it in line. */
  predicate OffCourse(s: Cluster, key: Key) {
    (forall i :: 0 <= i < |s.events| ==> KeyOf(s.events[i].pod) != key) && !OnCourse(s, key)
  }

  /** Neither the cache nor a stray deletion touches the key. */
  predicate LeavesKey(step: ReconcileRuns.Step, key: Key) {
    && (step.Change? ==> step.key != key)
    && (step.DeleteStray? ==> step.podKey != key)
  }

  lemma InsertKeepsOthers(q: State, key: Key, now: Time, limiter: Duration, k: Key)
    requires Inv(q) && k != key
    ensures Awaited(Insert(q, key, true, None, now, limiter), k) <==> Awaited(q, k)
  {
    hide Inv, Find, Insert;
    InsertByKey(q, key, true, None, now, limiter);
  }

  /** Whether a key is on course depends on its own entries only. */
  lemma OnCourseDependsOn(s: Cluster, s': Cluster, k: Key)
    requires KeysSound(s) && OneSlash(k) && s'.cache == s.cache && s'.handlers == s.handlers
    requires SameFor(s.world, s'.world, k) && (Awaited(s'.queue, k) <==> Awaited(s.queue, k))
    requires s'.world.deletions == s.world.deletions
    ensures OnCourse(s', k) <==> OnCourse(s, k)
  {
    hide OneSlash, Outlook, Awaited;
    OutlookDependsOn(s, s', k);
  }

  lemma DeliverStaysOff(localIP: string, s: Cluster, heard: bool, now: Time, limiter: Duration, k: Key)
    requires Inv(s.queue) && KeysSound(s) && OneSlash(k) && OffCourse(s, k)
    requires ReconcileRuns.Enabled(s, Deliver(heard, now, limiter))
    ensures OffCourse(ReconcileRuns.Next(localIP, s, Deliver(heard, now, limiter)), k)
  {
    hide OneSlash, OnCourse, Inv, Insert, Enqueues, KeyOf, Awaited, KeysSound;
    assert KeyOf(s.events[0].pod) != k;
    InsertKeepsOthers(s.queue, KeyOf(s.events[0].pod), now, limiter, k);
    OnCourseDependsOn(s, ReconcileRuns.Next(localIP, s, Deliver(heard, now, limiter)), k);
  }

  lemma OtherStepStaysOff(localIP: string, s: Cluster, step: ReconcileRuns.Step, k: Key)
    requires Sound(s) && OneSlash(k) && OffCourse(s, k) && ReconcileRuns.Enabled(s, step) && LeavesKey(step, k)
    requires step.Change? || step.Report? || step.DeleteStray?
    ensures OffCourse(ReconcileRuns.Next(localIP, s, step), k)
  {
    hide OneSlash, Find, PodKey, SplitMetaNamespaceKey, Outlook, Inv, IsTerminal, EventsSound, Linked,
        Announced;
    OutlookDependsOn(s, ReconcileRuns.Next(localIP, s, step), k);
  }

  lemma ActStaysOff(localIP: string, s: Cluster, key: Key, now: Time, limiter: Duration, k: Key)
    requires Sound(s) && OneSlash(k) && OffCourse(s, k) && ReconcileRuns.Enabled(s, Act(key, now, limiter))
    ensures OffCourse(ReconcileRuns.Next(localIP, s, Act(key, now, limiter)), k)
  {
    hide OneSlash, Find, PodKey, SplitMetaNamespaceKey, Pass, Inv, Linked, Announced, EventsSound, InLine;
    HandledIsPodKey(s, key);
    if k == key {
      PassAtAnyTime(s.world, key, s.handlers[key].read, now, limiter);
      InLineOfParts(Pass(s.world, key, s.handlers[key].read, now, limiter),
          Pass(s.world, key, s.handlers[key].read, 0, 0),
                    key, ReadOf(s.cache, key));
      PassKnows(s.world, key, s.handlers[key].read, now, limiter);
    } else {
      hide Outlook;
      PassTouchesOnly(s.world, key, s.handlers[key].read, now, limiter, k);
      OutlookDependsOn(s, ReconcileRuns.Next(localIP, s, Act(key, now, limiter)), k);
    }
  }

  lemma QueueStepStaysOff(localIP: string, s: Cluster, step: ReconcileRuns.Step, k: Key)
    requires Sound(s) && OneSlash(k) && OffCourse(s, k) && ReconcileRuns.Enabled(s, step)
    requires step.Take? || step.Look? || step.Finish?
    ensures OffCourse(ReconcileRuns.Next(localIP, s, step), k)
  {
    hide OneSlash, Find, Pass, Inv, WorkQueue.Take, Complete, Linked, EventsSound, InLine, KeyOf, KeysSound;
    match step {
      case Take(_) => TakeByKey(s.queue);
      case Look(_, _) =>
      case Finish(key, verdict, measured, now, limiter) =>
        CompleteByKey(s.queue, key, s.handlers[key].failed, verdict, measured, now, limiter);
    }
  }

  lemma QueueOf(s: Cluster)
    requires Sound(s)
    ensures Inv(s.queue) && KeysSound(s)
  {
  }

  lemma {:induction false} RunStaysOff(localIP: string, s: Cluster, steps: seq<ReconcileRuns.Step>, k: Key)
    requires Sound(s) && OneSlash(k) && OffCourse(s, k) && ReconcileRuns.Admissible(localIP, s, steps)
    requires forall i :: 0 <= i < |steps| ==> LeavesKey(steps[i], k)
    ensures OffCourse(ReconcileRuns.Exec(localIP, s, steps), k)
    decreases |steps|
  {
    hide Sound, OffCourse, OneSlash, ReconcileRuns.Enabled, ReconcileRuns.Next, LeavesKey;
    if steps != [] {
      var step := steps[0];
      StepStaysSound(localIP, s, step);
      assert LeavesKey(step, k);
      match step {
        case Act(key, now, limiter) => ActStaysOff(localIP, s, key, now, limiter, k);
        case Deliver(heard, now, limiter) =>
          QueueOf(s);
          DeliverStaysOff(localIP, s, heard, now, limiter, k);
        case Take(_) => QueueStepStaysOff(localIP, s, step, k);
        case Look(_, _) => QueueStepStaysOff(localIP, s, step, k);
        case Finish(_, _, _, _, _) => QueueStepStaysOff(localIP, s, step, k);
        case _ => OtherStepStaysOff(localIP, s, step, k);
      }
      RunStaysOff(localIP, ReconcileRuns.Next(localIP, s, step), steps[1..], k);
    }
  }

  /** Off course means out of line as soon as the key is neither handled nor awaited. */
  lemma OffCourseIsOutOfLine(s: Cluster, key: Key)
    requires OffCourse(s, key) && key !in s.handlers && !Awaited(s.queue, key)
    ensures !InLine(s.world, key, ReadOf(s.cache, key))
  {
    hide Awaited, Mirrored;
  }

  lemma CarelessIsOffCourse(localIP: string, s: Cluster, step: ReconcileRuns.Step, key: Key)
    requires Sound(s) && OneSlash(key) && ReconcileRuns.Enabled(s, step) && !Careful(s, step, key)
    requires forall i :: 0 <= i < |ReconcileRuns.Next(localIP, s, step).events| ==>
      KeyOf(ReconcileRuns.Next(localIP, s, step).events[i].pod) != key
    ensures OffCourse(ReconcileRuns.Next(localIP, s, step), key)
  {
    hide OneSlash, Find, Pass, Inv, Insert, Complete, Linked, EventsSound, Mirrored, KeyOf;
    match step {
      case Act(_, now, limiter) => PassKnows(s.world, key, s.handlers[key].read, now, limiter);
      case Finish(_, verdict, measured, now, limiter) =>
        ProcessingIsNotListed(s.queue, key);
        CompleteByKey(s.queue, key, s.handlers[key].failed, verdict, measured, now, limiter);
      case _ =>
    }
  }

  /**
   Careless means lost: after any run, once a step on a key is not careful and nothing more is told
   about it, then whatever follows, short of another change or a stray deletion of the key, the
   provider is out of line with the cache (a cached pod unknown, missing, different or marked without
   its deletion scheduled, or a pod that is no longer cached) whenever the key is neither handled nor
   awaited.
   */
  lemma CarelessStepLosesPod(localIP: string, steps: seq<ReconcileRuns.Step>, step: ReconcileRuns.Step,
                             more: seq<ReconcileRuns.Step>, key: Key)
    requires OneSlash(key) && ReconcileRuns.Admissible(localIP, ReconcileRuns.INITIAL, steps)
    requires var s := ReconcileRuns.Exec(localIP, ReconcileRuns.INITIAL, steps);
      && ReconcileRuns.Enabled(s, step) && !Careful(s, step, key)
      && var s' := ReconcileRuns.Next(localIP, s, step);
         && (forall i :: 0 <= i < |s'.events| ==> KeyOf(s'.events[i].pod) != key)
         && ReconcileRuns.Admissible(localIP, s', more)
    requires forall i :: 0 <= i < |more| ==> LeavesKey(more[i], key)
    ensures var s := ReconcileRuns.Exec(localIP, ReconcileRuns.INITIAL, steps);
      var end := ReconcileRuns.Exec(localIP, ReconcileRuns.Next(localIP, s, step), more);
      key !in end.handlers && !Awaited(end.queue, key) ==> !InLine(end.world, key, ReadOf(end.cache, key))
  {
    InitiallyConverging(key);
    AlwaysSound(localIP, ReconcileRuns.INITIAL, steps);
    var s := ReconcileRuns.Exec(localIP, ReconcileRuns.INITIAL, steps);
    var s' := ReconcileRuns.Next(localIP, s, step);
    hide OneSlash, Sound, Careful, ReconcileRuns.Enabled, ReconcileRuns.Next, ReconcileRuns.Exec,
      ReconcileRuns.Admissible, LeavesKey, OffCourse, InLine, Awaited, KeyOf;
    CarelessIsOffCourse(localIP, s, step, key);
    StepStaysSound(localIP, s, step);
    RunStaysOff(localIP, s', more, key);
    var end := ReconcileRuns.Exec(localIP, s', more);
    if key !in end.handlers && !Awaited(end.queue, key) {
      OffCourseIsOutOfLine(end, key);
    }
  }

  /** And it does come to that: at the latest when a handler that has looked acts, the provider is out of line. */
  lemma CarelessStepGoesWrong(localIP: string, steps: seq<ReconcileRuns.Step>, step: ReconcileRuns.Step, key: Key)
    returns (more: seq<ReconcileRuns.Step>)
    requires OneSlash(key) && ReconcileRuns.Admissible(localIP, ReconcileRuns.INITIAL, steps)
    requires var s := ReconcileRuns.Exec(localIP, ReconcileRuns.INITIAL, steps);
      && ReconcileRuns.Enabled(s, step) && !Careful(s, step, key)
      && var s' := ReconcileRuns.Next(localIP, s, step);
         forall i :: 0 <= i < |s'.events| ==> KeyOf(s'.events[i].pod) != key
    ensures var s := ReconcileRuns.Exec(localIP, ReconcileRuns.INITIAL, steps);
      var s' := ReconcileRuns.Next(localIP, s, step);
      && |more| <= 1 && ReconcileRuns.Admissible(localIP, s', more)
      && var end := ReconcileRuns.Exec(localIP, s', more); !InLine(end.world, key, ReadOf(end.cache, key))
  {
    InitiallyConverging(key);
    AlwaysSound(localIP, ReconcileRuns.INITIAL, steps);
    var s := ReconcileRuns.Exec(localIP, ReconcileRuns.INITIAL, steps);
    StepStaysSound(localIP, s, step);
    hide OneSlash, Sound, ReconcileRuns.Exec, ReconcileRuns.Admissible, OffCourse, InLine, Awaited, KeyOf, Mirrored;
    CarelessIsOffCourse(localIP, s, step, key);
    more := GoesWrong(localIP, s, step, key);
  }

  lemma GoesWrong(localIP: string, s: Cluster, step: ReconcileRuns.Step, key: Key)
    returns (more: seq<ReconcileRuns.Step>)
    requires Sound(s) && OneSlash(key) && ReconcileRuns.Enabled(s, step) && !Careful(s, step, key)
    requires OffCourse(ReconcileRuns.Next(localIP, s, step), key)
    requires Sound(ReconcileRuns.Next(localIP, s, step))
    ensures var s' := ReconcileRuns.Next(localIP, s, step);
      && |more| <= 1 && ReconcileRuns.Admissible(localIP, s', more)
      && var end := ReconcileRuns.Exec(localIP, s', more); !InLine(end.world, key, ReadOf(end.cache, key))
  {
    hide OneSlash, Find, Pass, Inv, Insert, Complete, Linked, EventsSound, Mirrored, KeyOf, KeysSound, QueueConsistent;
    var s' := ReconcileRuns.Next(localIP, s, step);
    more := [];
    if step.Deliver? && key in s'.handlers && s'.handlers[key].Looked? {
      var act := Act(key, 0, 0);
      more := [act];
      assert ReconcileRuns.Exec(localIP, s', more) == ReconcileRuns.Next(localIP, s', act);
    }
  }
}
