/**
 How a pod's provider status reaches the API server: notifiers store it with the known pod and
 enqueue the key; a queue handler reads the pod, then the stored status, and patches the
 difference. The API server, the notifiers and the handlers interleave at each of these steps.
 Reads go through a cache, so a handler may see, and a pod may be learned in, any version a pod of
 that name ever had. Handlers are named by their key, since the queue never starts two for one key.
 */
module StatusSync {
  import opened Wrappers
  import opened WorkQueue

  type Field = string
  type Value = string
  type Status = map<Field, Value>
  type Uid = nat

  /** What the provider reported; everything but the status is one opaque value. */
  datatype ProviderPod = ProviderPod(status: Status, rest: Value)

  datatype ApiPod = ApiPod(uid: Uid, status: Status)

  datatype KnownPod = KnownPod(uid: Uid, last: ProviderPod)

  datatype Phase =
    | Started
    | Fetched(base: Status)                      // read the pod
    | Patching(base: Status, status: Status)     // read the stored provider status too
    | Done(failed: bool)

  /** What a read answers: some version a pod of that name has had, nothing, or an error. */
  datatype Read = Seen(pod: ApiPod) | Missing | Failing

  datatype System = System(
    api: map<Key, ApiPod>,
    past: set<(Key, ApiPod)>,                    // every version any pod has had
    nextUid: Uid,
    known: map<Key, KnownPod>,
    announcing: multiset<Key>,                   // stored by a notifier, not yet enqueued
    queue: State,
    handlers: map<Key, Phase>,
    givenUp: set<Key>)                           // last failure was not retried and nothing was stored since

  datatype Outcome = Applied | Refused | AppliedButFailed

  datatype Step =
    | CreatePod(key: Key, status: Status)
    | DeletePod(key: Key)
    | AddKnown(key: Key, pod: ApiPod, rest: Value)
    | DeleteKnown(key: Key)
    | Store(key: Key, reported: ProviderPod)
    | Enqueue(key: Key, now: Time, limiter: Duration)
    | Take(now: Time)
    | Fetch(key: Key, read: Read)
    | ReadStored(key: Key)
    | Patch(key: Key, outcome: Outcome)
    | Finish(key: Key, verdict: Verdict, measured: Time, now: Time, limiter: Duration)

  const PHASE: Field := "phase"

  /** Succeeded and Failed pods are not updated any more. */
  predicate Terminal(status: Status) {
    PHASE in status && (status[PHASE] == "Succeeded" || status[PHASE] == "Failed")
  }

  // ---------------------------------------------------------------- merge patches

  /** The server's status after a merge patch that turns base into wanted. */
  function MergePatch(current: Status, base: Status, wanted: Status): Status {
    map f | f in current.Keys + wanted.Keys
          && (if f in wanted then f in current || f !in base || base[f] != wanted[f] else f !in base)
      :: if f in wanted && (f !in base || base[f] != wanted[f]) then wanted[f] else current[f]
  }

  function At(status: Status, f: Field): Option<Value> {
    if f in status then Some(status[f]) else None
  }

  lemma SameFieldsSameStatus(a: Status, b: Status)
    ensures a == b <==> forall f :: At(a, f) == At(b, f)
  {
    if forall f :: At(a, f) == At(b, f) {
      assert forall f :: f in a ==> At(b, f) == Some(a[f]);
      assert forall f :: f in b ==> At(a, f) == Some(b[f]);
    }
  }

  /** A patch sets the fields in which base and wanted differ and leaves the others. */
  lemma PatchByField(current: Status, base: Status, wanted: Status, f: Field)
    ensures At(MergePatch(current, base, wanted), f) ==
      if At(base, f) == At(wanted, f) then At(current, f) else At(wanted, f)
  {
  }

  /** A patch hits its target when it was computed from the current status, or changes nothing. */
  lemma PatchReachesTarget(current: Status, base: Status, wanted: Status)
    requires base == current || wanted == current
    ensures MergePatch(current, base, wanted) == wanted
  {
  }

  /** It hits exactly when every field in which current and wanted differ also differs between base and wanted. */
  lemma PatchHitsIff(current: Status, base: Status, wanted: Status)
    ensures MergePatch(current, base, wanted) == wanted <==>
      forall f :: At(current, f) != At(wanted, f) ==> At(base, f) != At(wanted, f)
  {
    hide MergePatch, At;
    var after := MergePatch(current, base, wanted);
    SameFieldsSameStatus(after, wanted);
    forall f ensures At(after, f) == if At(base, f) == At(wanted, f) then At(current, f) else At(wanted, f) {
      PatchByField(current, base, wanted, f);
    }
  }

  /** It leaves the current status as it is exactly when it sets no field to another value. */
  lemma PatchLeavesIff(current: Status, base: Status, wanted: Status)
    ensures MergePatch(current, base, wanted) == current <==>
      forall f :: At(base, f) != At(wanted, f) ==> At(wanted, f) == At(current, f)
  {
    hide MergePatch, At;
    var after := MergePatch(current, base, wanted);
    SameFieldsSameStatus(after, current);
    forall f ensures At(after, f) == if At(base, f) == At(wanted, f) then At(current, f) else At(wanted, f) {
      PatchByField(current, base, wanted, f);
    }
  }

  /** It yields a given status exactly when each field of that is the one it sets or else leaves. */
  lemma PatchYieldsIff(current: Status, base: Status, wanted: Status, given: Status)
    ensures MergePatch(current, base, wanted) == given <==>
      forall f :: At(given, f) == if At(base, f) == At(wanted, f) then At(current, f) else At(wanted, f)
  {
    hide MergePatch, At;
    var after := MergePatch(current, base, wanted);
    SameFieldsSameStatus(after, given);
    forall f ensures At(after, f) == if At(base, f) == At(wanted, f) then At(current, f) else At(wanted, f) {
      PatchByField(current, base, wanted, f);
    }
  }

  // ---------------------------------------------------------------- steps

  predicate Enabled(s: System, step: Step) {
    match step
    case CreatePod(key, _) => key !in s.api
    case DeletePod(key) => key in s.api
    case AddKnown(key, pod, _) => (key, pod) in s.past && key !in s.known
    case DeleteKnown(_) => true
    case Store(key, _) => key in s.known
    case Enqueue(key, now, _) => key in s.announcing && now > ZERO_TIME
    case Take(now) => Due(s.queue, now)
    case Fetch(key, read) => PhaseOf(s, key) == Some(Started) && (read.Seen? ==> (key, read.pod) in s.past)
    case ReadStored(key) => key in s.handlers && s.handlers[key].Fetched?
    case Patch(key, _) => key in s.handlers && s.handlers[key].Patching?
    case Finish(key, _, _, _, _) => key in s.handlers && s.handlers[key].Done? && key in s.queue.processing
  }

  function PhaseOf(s: System, key: Key): Option<Phase> {
    if key in s.handlers then Some(s.handlers[key]) else None
  }

  function SetPod(s: System, key: Key, pod: ApiPod): System {
    s.(api := s.api[key := pod], past := s.past + {(key, pod)})
  }

  /** How a handler goes on after its first read. */
  function AfterFetch(read: Read): Phase {
    match read
    case Seen(pod) => Fetched(pod.status)
    case Missing => Done(false)
    case Failing => Done(true)
  }

  function Next(s: System, step: Step): System
    requires Enabled(s, step)
  {
    match step
    case CreatePod(key, status) => SetPod(s, key, ApiPod(s.nextUid, status)).(nextUid := s.nextUid + 1)
    case DeletePod(key) => s.(api := s.api - {key})
    case AddKnown(key, pod, rest) =>
      s.(known := s.known[key := KnownPod(pod.uid, ProviderPod(pod.status, rest))], givenUp := s.givenUp - {key})
    case DeleteKnown(key) => s.(known := s.known - {key})
    case Store(key, reported) =>
      if s.known[key].last == reported then s
      else s.(known := s.known[key := s.known[key].(last := reported)],
              announcing := s.announcing + multiset{key},
              givenUp := s.givenUp - {key})
    case Enqueue(key, now, limiter) =>
      s.(announcing := s.announcing - multiset{key}, queue := Insert(s.queue, key, true, None, now, limiter))
    case Take(_) =>
      s.(queue := WorkQueue.Take(s.queue), handlers := s.handlers[s.queue.items[0].key := Started])
    case Fetch(key, read) => s.(handlers := s.handlers[key := AfterFetch(read)])
    case ReadStored(key) =>
      var base := s.handlers[key].base;
      s.(handlers := s.handlers[key :=
        if Terminal(base) || key !in s.known then Done(false) else Patching(base, s.known[key].last.status)])
    case Patch(key, outcome) =>
      var p := s.handlers[key];
      if outcome.Refused? || key !in s.api then
        s.(handlers := s.handlers[key := Done(key in s.api)])
      else
        SetPod(s, key, s.api[key].(status := MergePatch(s.api[key].status, p.base, p.status))).(
          handlers := s.handlers[key := Done(outcome.AppliedButFailed?)])
    case Finish(key, verdict, measured, now, limiter) =>
      var failed := s.handlers[key].failed;
      s.(queue := Complete(s.queue, key, failed, verdict, measured, now, limiter),
         handlers := s.handlers - {key},
         givenUp := if failed && verdict.GiveUp? then s.givenUp + {key} else s.givenUp)
  }

  predicate Admissible(s: System, steps: seq<Step>)
    decreases |steps|
  {
    steps == [] || (Enabled(s, steps[0]) && Admissible(Next(s, steps[0]), steps[1..]))
  }

  function Exec(s: System, steps: seq<Step>): System
    requires Admissible(s, steps)
    decreases |steps|
  {
    if steps == [] then s else Exec(Next(s, steps[0]), steps[1..])
  }

  const INITIAL := System(map[], {}, 0, map[], multiset{}, EMPTY, map[], {})

  // ---------------------------------------------------------------- where a key is heading

  /** A pod the controller knows and that is still the one in the API server. */
  predicate Tracked(s: System, key: Key) {
    key in s.known && key in s.api && s.known[key].uid == s.api[key].uid
  }

  /** A handler will start for the key after this moment. */
  predicate Awaited(s: System, key: Key) {
    || key in s.announcing
    || Listed(s.queue.items, key)
    || (key in s.queue.processing && s.queue.processing[key].redirtiedAt != ZERO_TIME)
  }

  /** Nothing more is owed to a pod: the stored status is there, or the pod is terminal. */
  predicate Settled(current: Status, stored: Status) {
    current == stored || Terminal(current)
  }

  /** A handler in this phase, or none, leaves nothing owed if it goes on undisturbed. */
  predicate Course(phase: Option<Phase>, current: Status, stored: Status) {
    match phase
    case None => Settled(current, stored)
    case Some(Started) => true
    case Some(Fetched(base)) =>
      if Terminal(base) then Settled(current, stored) else Settled(MergePatch(current, base, stored), stored)
    case Some(Patching(base, status)) => Settled(MergePatch(current, base, status), stored)
    case Some(Done(failed)) => failed || Settled(current, stored)
  }

  predicate OnCourse(s: System, key: Key)
    requires Tracked(s, key)
  {
    Course(PhaseOf(s, key), s.api[key].status, s.known[key].last.status)
  }

  /**
   The condition a read and a learning of a pod must meet, over what is there at that moment: for
   a tracked pod nobody will handle again, the handler's read must lead to the stored status; and
   learning a pod must not happen under a handler that leads elsewhere.
   */
  predicate Careful(s: System, step: Step) {
    match step
    case AddKnown(key, pod, _) =>
      key in s.api && s.api[key].uid == pod.uid && !Awaited(s, key) ==>
        Course(PhaseOf(s, key), s.api[key].status, pod.status)
    case Fetch(key, read) =>
      Tracked(s, key) && !Awaited(s, key) && key !in s.givenUp ==>
        Course(Some(AfterFetch(read)), s.api[key].status, s.known[key].last.status)
    case _ => true
  }

  predicate CarefulRun(s: System, steps: seq<Step>)
    requires Admissible(s, steps)
    decreases |steps|
  {
    steps == [] || (Careful(s, steps[0]) && CarefulRun(Next(s, steps[0]), steps[1..]))
  }

  // ---------------------------------------------------------------- the invariant

  /** The queue's own invariant, one handler per key in processing, and nothing marked forgotten. */
  ghost predicate QueueConsistent(queue: State, handlers: map<Key, Phase>) {
    && Inv(queue)
    && (forall k :: k in handlers <==> k in queue.processing)
    && (forall k :: k in queue.processing ==> !queue.processing[k].forget)
  }

  ghost predicate UidsSpent(s: System) {
    && (forall e :: e in s.past ==> e.1.uid < s.nextUid)
    && (forall k :: k in s.api ==> (k, s.api[k]) in s.past)
    && (forall k :: k in s.known ==> s.known[k].uid < s.nextUid)
  }

  ghost predicate Converging(s: System) {
    forall k :: Tracked(s, k) ==> Awaited(s, k) || k in s.givenUp || OnCourse(s, k)
  }

  ghost predicate Consistent(s: System) {
    QueueConsistent(s.queue, s.handlers) && UidsSpent(s)
  }

  /** An enqueue keeps the handlers and makes its key awaited. */
  lemma EnqueueKeepsQueue(s: System, key: Key, now: Time, limiter: Duration)
    requires QueueConsistent(s.queue, s.handlers) && Enabled(s, Enqueue(key, now, limiter))
    ensures var s' := Next(s, Enqueue(key, now, limiter));
      QueueConsistent(s'.queue, s'.handlers) && Awaited(s', key) && (forall k :: Awaited(s, k) ==> Awaited(s', k))
  {
    hide Inv, Find, Insert;
    InsertByKey(s.queue, key, true, None, now, limiter);
  }

  /** A start ends the wait of its own key only. */
  lemma TakeKeepsQueue(s: System, now: Time)
    requires QueueConsistent(s.queue, s.handlers) && Enabled(s, Take(now))
    ensures var s' := Next(s, Take(now)); var key := s.queue.items[0].key;
      && QueueConsistent(s'.queue, s'.handlers) && key !in s.handlers
      && (forall k :: Awaited(s, k) && k != key ==> Awaited(s', k))
  {
    hide Inv, Find, WorkQueue.Take;
    TakeByKey(s.queue);
    WaitingIsUnmarked(s.queue);
  }

  /** A handler's end loses no wait, and a failure that is retried begins one. */
  lemma FinishKeepsQueue(s: System, key: Key, verdict: Verdict, measured: Time, now: Time, limiter: Duration)
    requires QueueConsistent(s.queue, s.handlers) && Enabled(s, Finish(key, verdict, measured, now, limiter))
    ensures var s' := Next(s, Finish(key, verdict, measured, now, limiter));
      && QueueConsistent(s'.queue, s'.handlers)
      && (forall k :: Awaited(s, k) ==> Awaited(s', k))
      && (s.handlers[key].failed && verdict.Retry? ==> Awaited(s', key))
  {
    hide Inv, Find, Complete;
    CompleteByKey(s.queue, key, s.handlers[key].failed, verdict, measured, now, limiter);
    ProcessingIsNotListed(s.queue, key);
  }

  lemma StepQueueConsistent(s: System, step: Step)
    requires QueueConsistent(s.queue, s.handlers) && Enabled(s, step)
    ensures QueueConsistent(Next(s, step).queue, Next(s, step).handlers)
  {
    hide Inv, Find, Insert, Complete, WorkQueue.Take, MergePatch;
    match step {
      case Enqueue(key, now, limiter) => EnqueueKeepsQueue(s, key, now, limiter);
      case Take(now) => TakeKeepsQueue(s, now);
      case Finish(key, verdict, measured, now, limiter) => FinishKeepsQueue(s, key, verdict, measured, now, limiter);
      case _ =>
    }
  }

  /** Only the start of its handler ends the wait of a key. */
  lemma StepKeepsAwaited(s: System, step: Step, k: Key)
    requires QueueConsistent(s.queue, s.handlers) && Enabled(s, step)
    ensures Awaited(s, k) ==> Awaited(Next(s, step), k) || (step.Take? && s.queue.items[0].key == k)
    ensures step.Take? ==> s.queue.items[0].key !in s.handlers
    ensures step.Finish? && step.key == k && s.handlers[k].failed && step.verdict.Retry? ==> Awaited(Next(s, step), k)
  {
    hide Inv, Find, Insert, Complete, WorkQueue.Take, MergePatch;
    match step {
      case Enqueue(key, now, limiter) => EnqueueKeepsQueue(s, key, now, limiter);
      case Take(now) => TakeKeepsQueue(s, now);
      case Finish(key, verdict, measured, now, limiter) => FinishKeepsQueue(s, key, verdict, measured, now, limiter);
      case _ =>
    }
  }

  lemma StepConsistent(s: System, step: Step)
    requires Consistent(s) && Enabled(s, step)
    ensures Consistent(Next(s, step))
  {
    hide Inv, Find, Insert, Complete, WorkQueue.Take, MergePatch, QueueConsistent;
    StepQueueConsistent(s, step);
  }

  lemma {:induction false} AlwaysConsistent(s: System, steps: seq<Step>)
    requires Consistent(s) && Admissible(s, steps)
    ensures Consistent(Exec(s, steps))
    decreases |steps|
  {
    hide Consistent;
    if steps != [] {
      StepConsistent(s, steps[0]);
      AlwaysConsistent(Next(s, steps[0]), steps[1..]);
    }
  }

  predicate OfHandler(step: Step) {
    step.Take? || step.Fetch? || step.ReadStored? || step.Patch? || step.Finish?
  }

  lemma WorkConverges(s: System, step: Step, k: Key)
    requires Converging(s) && Enabled(s, step) && Careful(s, step) && (step.Fetch? || step.ReadStored? || step.Patch?)
    requires Tracked(Next(s, step), k)
    ensures Awaited(Next(s, step), k) || k in Next(s, step).givenUp || OnCourse(Next(s, step), k)
  {
    hide Find, MergePatch, Terminal, Awaited;
    assert Tracked(s, k);
    AwaitedBySameQueue(s, Next(s, step), k);
  }

  lemma AwaitedBySameQueue(s: System, s': System, k: Key)
    requires s'.queue == s.queue && s'.announcing == s.announcing
    ensures Awaited(s', k) <==> Awaited(s, k)
  {
  }

  lemma HandlerStepConverges(s: System, step: Step, k: Key)
    requires Consistent(s) && Converging(s) && Enabled(s, step) && Careful(s, step) && OfHandler(step)
    requires Tracked(Next(s, step), k)
    ensures Awaited(Next(s, step), k) || k in Next(s, step).givenUp || OnCourse(Next(s, step), k)
  {
    hide Inv, Find, Insert, Complete, WorkQueue.Take, MergePatch, Terminal, Awaited, QueueConsistent,
      Careful, UidsSpent;
    if step.Take? || step.Finish? {
      StepKeepsAwaited(s, step, k);
    } else {
      WorkConverges(s, step, k);
    }
  }

  lemma StoredIsAwaited(s: System, key: Key, reported: ProviderPod)
    requires Enabled(s, Store(key, reported)) && s.known[key].last != reported
    ensures Awaited(Next(s, Store(key, reported)), key)
  {
  }

  lemma KeyConverges(s: System, step: Step, k: Key)
    requires Consistent(s) && Converging(s) && Enabled(s, step) && Careful(s, step) && Tracked(Next(s, step), k)
    ensures Awaited(Next(s, step), k) || k in Next(s, step).givenUp || OnCourse(Next(s, step), k)
  {
    hide Inv, Find, Insert, Complete, WorkQueue.Take, MergePatch, Terminal, Awaited, QueueConsistent;
    if OfHandler(step) {
      HandlerStepConverges(s, step, k);
    } else {
      StepKeepsAwaited(s, step, k);
      if step.Store? && s.known[step.key].last != step.reported {
        StoredIsAwaited(s, step.key, step.reported);
      }
    }
  }

  lemma StepConverging(s: System, step: Step)
    requires Consistent(s) && Converging(s) && Enabled(s, step) && Careful(s, step)
    ensures Converging(Next(s, step))
  {
    hide Enabled, Next, Consistent, Tracked, Awaited, OnCourse, Careful;
    forall k | Tracked(Next(s, step), k)
      ensures Awaited(Next(s, step), k) || k in Next(s, step).givenUp || OnCourse(Next(s, step), k) {
      KeyConverges(s, step, k);
    }
  }

  lemma {:induction false} AlwaysConverging(s: System, steps: seq<Step>)
    requires Consistent(s) && Converging(s) && Admissible(s, steps) && CarefulRun(s, steps)
    ensures Consistent(Exec(s, steps)) && Converging(Exec(s, steps))
    decreases |steps|
  {
    hide Consistent, Converging;
    if steps != [] {
      StepConsistent(s, steps[0]);
      StepConverging(s, steps[0]);
      AlwaysConverging(Next(s, steps[0]), steps[1..]);
    }
  }

  // ---------------------------------------------------------------- main results

  /**
   Status convergence: in every run whose reads and learnings are careful, for a known pod that is
   still the one in the API server, is not Succeeded or Failed there and was not given up, the last provider
   status is what the API server has, or a notifier is about to enqueue the key, or the key waits
   or is redirtied, or a handler has yet to read and patch it or to be retried.
   */
  lemma StatusConverges(steps: seq<Step>, key: Key)
    requires Admissible(INITIAL, steps) && CarefulRun(INITIAL, steps)
    ensures var s := Exec(INITIAL, steps);
      Tracked(s, key) && key !in s.givenUp
      && At(s.api[key].status, PHASE) !in {Some("Succeeded"), Some("Failed")} ==>
        || s.known[key].last.status == s.api[key].status
        || key in s.announcing
        || Listed(s.queue.items, key)
        || (key in s.queue.processing && s.queue.processing[key].redirtiedAt != ZERO_TIME)
        || (key in s.handlers && (s.handlers[key] == Done(true) || !s.handlers[key].Done?))
  {
    AlwaysConverging(INITIAL, steps);
  }

  /** When no notifier, item or handler is left, every such pod has its last provider status. */
  lemma QuiescentIsConverged(steps: seq<Step>, key: Key)
    requires Admissible(INITIAL, steps) && CarefulRun(INITIAL, steps)
    requires var s := Exec(INITIAL, steps); s.announcing == multiset{} && s.queue == EMPTY
    ensures var s := Exec(INITIAL, steps);
      Tracked(s, key) && key !in s.givenUp
      && At(s.api[key].status, PHASE) !in {Some("Succeeded"), Some("Failed")} ==>
        s.known[key].last.status == s.api[key].status
  {
    AlwaysConverging(INITIAL, steps);
  }

  /**
   A pass that reads the current pod and whose calls are answered ends with the stored status in the
   API server, whatever phase the pod has there, or none, but Succeeded and Failed; a pod in one of
   these two is left as it is.
   */
  lemma AnsweredPassStoresStatus(steps: seq<Step>, key: Key)
    requires Admissible(INITIAL, steps)
    requires var s := Exec(INITIAL, steps); Tracked(s, key) && PhaseOf(s, key) == Some(Started)
    ensures var s := Exec(INITIAL, steps);
      var get, patch := Fetch(key, Seen(s.api[key])), Patch(key, Applied);
      && Enabled(s, get) && Enabled(Next(s, get), ReadStored(key))
      && var s2 := Next(Next(s, get), ReadStored(key));
         if At(s.api[key].status, PHASE) in {Some("Succeeded"), Some("Failed")} then
           s2.handlers[key] == Done(false) && s2.api == s.api
         else
           && Enabled(s2, patch)
           && var after := Next(s2, patch);
              && after.handlers[key] == Done(false)
              && after.api == s.api[key := s.api[key].(status := s.known[key].last.status)]
  {
    AlwaysConsistent(INITIAL, steps);
    hide *;
    AnsweredPass(Exec(INITIAL, steps), key);
  }

  lemma AnsweredPass(s: System, key: Key)
    requires Consistent(s) && Tracked(s, key) && PhaseOf(s, key) == Some(Started)
    ensures var get, patch := Fetch(key, Seen(s.api[key])), Patch(key, Applied);
      && Enabled(s, get) && Enabled(Next(s, get), ReadStored(key))
      && var s2 := Next(Next(s, get), ReadStored(key));
         if At(s.api[key].status, PHASE) in {Some("Succeeded"), Some("Failed")} then
           s2.handlers[key] == Done(false) && s2.api == s.api
         else
           && Enabled(s2, patch)
           && var after := Next(s2, patch);
              && after.handlers[key] == Done(false)
              && after.api == s.api[key := s.api[key].(status := s.known[key].last.status)]
  {
    hide MergePatch, QueueConsistent;
    PatchReachesTarget(s.api[key].status, s.api[key].status, s.known[key].last.status);
  }

  // ---------------------------------------------------------------- reads and learnings that are careful

  /** Wherever the current status differs from the wanted one, the base of the patch does too. */
  ghost predicate Covers(base: Status, current: Status, wanted: Status) {
    forall f :: At(current, f) != At(wanted, f) ==> At(base, f) != At(wanted, f)
  }

  /**
   Which reads are careful: any if nobody counts on them, an error always, a missing or terminal pod
   only if nothing is owed, any other version exactly if its patch hits, field by field, or ends the
   pod.
   */
  lemma ReadIsCarefulIff(s: System, key: Key, read: Read)
    ensures Careful(s, Fetch(key, read)) <==>
      || !Tracked(s, key) || Awaited(s, key) || key in s.givenUp
      || var current, stored := s.api[key].status, s.known[key].last.status;
         match read
         case Failing => true
         case Missing => current == stored || Terminal(current)
         case Seen(pod) =>
           if Terminal(pod.status) then current == stored || Terminal(current)
           else Covers(pod.status, current, stored) || Terminal(MergePatch(current, pod.status, stored))
  {
    hide MergePatch, Terminal, Awaited, At;
    if Tracked(s, key) && read.Seen? {
      PatchHitsIff(s.api[key].status, read.pod.status, s.known[key].last.status);
    }
  }

  /**
   Which learnings are careful, whatever version is learned and wherever the handler of the key is:
   any if the pod is no longer there or its key is awaited; without a handler that will still patch,
   exactly if nothing is owed then; before a patch from a base, as for a read; under a patch, exactly
   if every field ends as it was learned, or the pod ends.
   */
  lemma LearningIsCarefulIff(s: System, key: Key, pod: ApiPod, rest: Value)
    ensures Careful(s, AddKnown(key, pod, rest)) <==>
      || key !in s.api || s.api[key].uid != pod.uid || Awaited(s, key)
      || var current := s.api[key].status;
         match PhaseOf(s, key)
         case None => current == pod.status || Terminal(current)
         case Some(Started) => true
         case Some(Fetched(base)) =>
           if Terminal(base) then current == pod.status || Terminal(current)
           else Covers(base, current, pod.status) || Terminal(MergePatch(current, base, pod.status))
         case Some(Patching(base, status)) =>
           || (forall f :: At(pod.status, f) == if At(base, f) == At(status, f) then At(current, f) else At(status, f))
           || Terminal(MergePatch(current, base, status))
         case Some(Done(failed)) => failed || current == pod.status || Terminal(current)
  {
    hide MergePatch, Terminal, Awaited, At;
    if key in s.api && key in s.handlers {
      match s.handlers[key]
      case Fetched(base) => PatchHitsIff(s.api[key].status, base, pod.status);
      case Patching(base, status) => PatchYieldsIff(s.api[key].status, base, status, pod.status);
      case _ =>
    }
  }

  /** Under a patch, learning the current version is careful exactly if the patch sets no field to another value. */
  lemma LearningUnderPatchIsCarefulIff(s: System, key: Key, rest: Value)
    requires key in s.api && !Awaited(s, key) && key in s.handlers && s.handlers[key].Patching?
    ensures var current, p := s.api[key].status, s.handlers[key];
      Careful(s, AddKnown(key, s.api[key], rest)) <==>
        || (forall f :: At(p.base, f) != At(p.status, f) ==> At(p.status, f) == At(current, f))
        || Terminal(MergePatch(current, p.base, p.status))
  {
    hide MergePatch, Terminal, Awaited, At;
    PatchLeavesIff(s.api[key].status, s.handlers[key].base, s.handlers[key].status);
  }

  /** Reading the current pod, and learning it in its current version while nobody patches. */
  predicate UpToDate(s: System, step: Step) {
    match step
    case Fetch(key, read) => !read.Failing? ==> read == if key in s.api then Seen(s.api[key]) else Missing
    case AddKnown(key, pod, _) =>
      key in s.api && s.api[key].uid == pod.uid ==>
        pod == s.api[key] && !(key in s.handlers && s.handlers[key].Patching?)
    case _ => true
  }

  predicate UpToDateRun(s: System, steps: seq<Step>)
    requires Admissible(s, steps)
    decreases |steps|
  {
    steps == [] || (UpToDate(s, steps[0]) && UpToDateRun(Next(s, steps[0]), steps[1..]))
  }

  lemma UpToDateIsCareful(s: System, step: Step)
    requires UpToDate(s, step)
    ensures Careful(s, step)
  {
    hide MergePatch, Terminal, Awaited;
    match step {
      case Fetch(key, read) =>
        if Tracked(s, key) && read.Seen? {
          PatchReachesTarget(s.api[key].status, read.pod.status, s.known[key].last.status);
        }
      case AddKnown(key, pod, _) =>
        if key in s.api && s.api[key].uid == pod.uid && key in s.handlers && s.handlers[key].Fetched? {
          PatchReachesTarget(s.api[key].status, s.handlers[key].base, pod.status);
        }
      case _ =>
    }
  }

  /** Runs without stale reads, and without learning a pod under a patch, converge. */
  lemma {:induction false} UpToDateRunIsCareful(s: System, steps: seq<Step>)
    requires Admissible(s, steps) && UpToDateRun(s, steps)
    ensures CarefulRun(s, steps)
    decreases |steps|
  {
    hide Careful, UpToDate;
    if steps != [] {
      UpToDateIsCareful(s, steps[0]);
      UpToDateRunIsCareful(Next(s, steps[0]), steps[1..]);
    }
  }
}
