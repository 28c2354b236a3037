/**
 The queue with its callers and workers as a step system: any number of producers, any number of
 workers, one clock. A step is one locked section of the queue or one step of a worker outside
 the lock (semaphore, wakeup channel of capacity one, timer). The rate limiter's answer, the
 handler's result and the retry function's verdict are arbitrary.
 */
module WorkerProtocol {
  import opened Wrappers
  import opened WorkQueue

  type Worker = nat

  datatype Activity =
    | Idle                                                      // wants the semaphore
    | Looking                                                   // top of the waiting loop
    | Sleeping                                                  // the list was empty, no timer
    | Measured(planned: Time, lookedAt: Time)                   // lock released, timer not made
    | Napping(planned: Time, lookedAt: Time, armedAt: Time)     // timer running
    | Handling(key: Key)
    | Stopped                                                   // its context was cancelled

  /**
   What the run has seen: every enqueue and every handler start in order, the keys enqueued since
   their last handler start and not forgotten since, the instants asked for since then, and the
   item each worker took last.
   */
  datatype History = History(
    enqueued: seq<Key>,
    started: seq<Key>,
    owed: set<Key>,
    asked: map<Key, seq<Time>>,
    taken: map<Worker, Item>)

  datatype System = System(
    clock: Time,
    queue: State,
    token: bool,
    semaphore: Option<Worker>,
    workers: map<Worker, Activity>,
    history: History)

  datatype Step =
    | Request(key: Key, ratelimit: bool, delay: Option<Duration>, limiter: Duration)
    | Drop(key: Key)
    | Tick(elapsed: nat)
    | Acquire(w: Worker)
    | Look(w: Worker)
    | Arm(w: Worker)
    | WakeByToken(w: Worker)
    | WakeByTimer(w: Worker)
    | Cancel(w: Worker)
    | Finish(w: Worker, failed: bool, verdict: Verdict, limiter: Duration, lag: nat)

  function Initial(clock: Time, workers: set<Worker>): System {
    System(clock, EMPTY, false, None, map w | w in workers :: Idle, History([], [], {}, map[], map[]))
  }

  predicate Holds(a: Activity) {
    a.Looking? || a.Sleeping? || a.Measured? || a.Napping?
  }

  /** When the timer of a napping worker fires: as long after it was made as was measured. */
  function Deadline(a: Activity): Time
    requires a.Napping?
  {
    a.armedAt + (a.planned - a.lookedAt)
  }

  function AskedFor(h: History, key: Key): seq<Time> {
    if key in h.asked then h.asked[key] else []
  }

  /** The instant a request asks for; a real clock and delay never give the zero instant. */
  function When(s: System, step: Step): Time
    requires step.Request?
  {
    s.clock + step.delay.GetOr(0)
  }

  predicate Enabled(s: System, step: Step) {
    match step
    case Request(_, _, _, _) => When(s, step) > ZERO_TIME
    case Drop(_) => true
    case Tick(_) => true
    case Acquire(w) => w in s.workers && s.workers[w].Idle? && s.semaphore.None?
    case Look(w) => w in s.workers && s.workers[w].Looking?
    case Arm(w) => w in s.workers && s.workers[w].Measured?
    case WakeByToken(w) => w in s.workers && (s.workers[w].Sleeping? || s.workers[w].Napping?) && s.token
    case WakeByTimer(w) => w in s.workers && s.workers[w].Napping? && Deadline(s.workers[w]) <= s.clock
    case Cancel(w) => w in s.workers && (s.workers[w].Idle? || s.workers[w].Sleeping? || s.workers[w].Napping?)
    case Finish(w, _, _, _, _) => w in s.workers && s.workers[w].Handling? && s.workers[w].key in s.queue.processing
  }

  function Become(s: System, w: Worker, a: Activity): System {
    s.(workers := s.workers[w := a])
  }

  function Start(s: System, w: Worker): System
    requires s.queue.items != []
  {
    var key := s.queue.items[0].key;
    var h := s.history;
    Become(s, w, Handling(key)).(
      queue := Take(s.queue),
      semaphore := None,
      history := h.(started := h.started + [key], owed := h.owed - {key}, asked := h.asked[key := []],
                    taken := h.taken[w := s.queue.items[0]]))
  }

  /** Whether completing an item calls insert, which puts a token into the channel. */
  predicate Reinserts(it: Item, failed: bool, verdict: Verdict) {
    !it.forget && ((failed && verdict.Retry?) || it.redirtiedAt != ZERO_TIME)
  }

  function Next(s: System, step: Step): System
    requires Enabled(s, step)
  {
    match step
    case Request(key, ratelimit, delay, limiter) =>
      var h := s.history;
      s.(queue := Insert(s.queue, key, ratelimit, delay, s.clock, limiter),
         token := true,
         history := h.(enqueued := h.enqueued + [key], owed := h.owed + {key},
                       asked := h.asked[key := AskedFor(h, key) + [When(s, step)]]))
    case Drop(key) =>
      s.(queue := Forget(s.queue, key), history := s.history.(owed := s.history.owed - {key}))
    case Tick(elapsed) => s.(clock := s.clock + elapsed)
    case Acquire(w) => Become(s, w, Looking).(semaphore := Some(w))
    case Look(w) =>
      if s.queue.items == [] then Become(s, w, Sleeping)
      else if Due(s.queue, s.clock) then Start(s, w)
      else Become(s, w, Measured(s.queue.items[0].planned, s.clock))
    case Arm(w) =>
      var a := s.workers[w];
      Become(s, w, Napping(a.planned, a.lookedAt, s.clock))
    case WakeByToken(w) => Become(s, w, Looking).(token := false)
    case WakeByTimer(w) => Become(s, w, Looking)
    case Cancel(w) => Become(s, w, Stopped).(semaphore := if Holds(s.workers[w]) then None else s.semaphore)
    case Finish(w, failed, verdict, limiter, lag) =>
      var key := s.workers[w].key;
      Become(s, w, Idle).(
        queue := Complete(s.queue, key, failed, verdict, s.clock - lag, s.clock, limiter),
        token := s.token || Reinserts(s.queue.processing[key], failed, verdict))
  }

  // ---------------------------------------------------------------- runs

  predicate Admissible(s: System, steps: seq<Step>)
    decreases |steps|
  {
    steps == [] || (Enabled(s, steps[0]) && Admissible(Next(s, steps[0]), steps[1..]))
  }

  function Exec(s: System, steps: seq<Step>): System
    requires Admissible(s, steps)
    decreases |steps|
  {
    if steps == [] then s else Exec(Next(s, steps[0]), steps[1..])
  }

  // ---------------------------------------------------------------- consistency and exclusion

  /** Exactly the semaphore's holder is in the waiting loop. */
  ghost predicate OneHolder(workers: map<Worker, Activity>, semaphore: Option<Worker>) {
    && (semaphore.Some? ==> semaphore.value in workers)
    && (forall w :: w in workers ==> (Holds(workers[w]) <==> semaphore == Some(w)))
  }

  /** The handled keys are exactly the given ones, one worker each. */
  ghost predicate OneHandlerEach(workers: map<Worker, Activity>, keys: set<Key>) {
    && (forall w :: w in workers && workers[w].Handling? ==> workers[w].key in keys)
    && (forall v, w :: v in workers && w in workers && v != w && workers[v].Handling? ==> workers[v] != workers[w])
    && (forall k :: k in keys ==> exists w :: w in workers && workers[w] == Handling(k))
  }

  ghost predicate Consistent(s: System) {
    && Inv(s.queue)
    && OneHolder(s.workers, s.semaphore)
    && OneHandlerEach(s.workers, s.queue.processing.Keys)
  }

  lemma HandlerStarts(workers: map<Worker, Activity>, keys: set<Key>, w: Worker, key: Key)
    requires OneHandlerEach(workers, keys) && w in workers && !workers[w].Handling? && key !in keys
    ensures OneHandlerEach(workers[w := Handling(key)], keys + {key})
  {
    var after := workers[w := Handling(key)];
    assert after[w] == Handling(key);
    forall k | k in keys ensures exists v :: v in after && after[v] == Handling(k) {
      var v :| v in workers && workers[v] == Handling(k);
      assert after[v] == Handling(k);
    }
  }

  lemma HandlerStops(workers: map<Worker, Activity>, keys: set<Key>, w: Worker)
    requires OneHandlerEach(workers, keys) && w in workers && workers[w].Handling?
    ensures OneHandlerEach(workers[w := Idle], keys - {workers[w].key})
  {
    var after := workers[w := Idle];
    forall k | k in keys - {workers[w].key} ensures exists v :: v in after && after[v] == Handling(k) {
      var v :| v in workers && workers[v] == Handling(k);
      assert after[v] == Handling(k);
    }
  }

  lemma OtherWorkKeepsHandlers(workers: map<Worker, Activity>, keys: set<Key>, w: Worker, a: Activity)
    requires OneHandlerEach(workers, keys) && w in workers && !workers[w].Handling? && !a.Handling?
    ensures OneHandlerEach(workers[w := a], keys)
  {
    var after := workers[w := a];
    forall k | k in keys ensures exists v :: v in after && after[v] == Handling(k) {
      var v :| v in workers && workers[v] == Handling(k);
      assert after[v] == Handling(k);
    }
  }

  lemma HandlersStepConsistent(s: System, step: Step)
    requires Consistent(s) && Enabled(s, step)
    ensures Inv(Next(s, step).queue)
    ensures OneHandlerEach(Next(s, step).workers, Next(s, step).queue.processing.Keys)
  {
    hide Inv, Find, Insert, Forget, Complete, Sorted, DistinctKeys, OneHandlerEach;
    var q, q' := s.queue, Next(s, step).queue;
    match step {
      case Request(key, ratelimit, delay, limiter) =>
        InsertByKey(q, key, ratelimit, delay, s.clock, limiter);
        assert forall k :: k in q'.processing.Keys <==> k in q.processing.Keys;
        assert q'.processing.Keys == q.processing.Keys;
      case Drop(key) =>
        ForgetByKey(q, key);
        assert forall k :: k in q'.processing.Keys <==> k in q.processing.Keys;
        assert q'.processing.Keys == q.processing.Keys;
      case Tick(_) =>
      case Look(w) =>
        if Due(q, s.clock) {
          TakeByKey(q);
          HandlerStarts(s.workers, q.processing.Keys, w, q.items[0].key);
          assert q'.processing.Keys == q.processing.Keys + {q.items[0].key};
        } else {
          OtherWorkKeepsHandlers(s.workers, q.processing.Keys, w, Next(s, step).workers[w]);
        }
      case Finish(w, failed, verdict, limiter, lag) =>
        var key := s.workers[w].key;
        CompleteByKey(q, key, failed, verdict, s.clock - lag, s.clock, limiter);
        HandlerStops(s.workers, q.processing.Keys, w);
        assert forall k :: k in q'.processing.Keys <==> k in q.processing.Keys - {key};
        assert q'.processing.Keys == q.processing.Keys - {key};
      case _ =>
        OtherWorkKeepsHandlers(s.workers, q.processing.Keys, step.w, Next(s, step).workers[step.w]);
    }
  }

  lemma StepConsistent(s: System, step: Step)
    requires Consistent(s) && Enabled(s, step)
    ensures Consistent(Next(s, step))
  {
    hide Inv, Find, Insert, Forget, Complete, Take, OneHandlerEach;
    HandlersStepConsistent(s, step);
  }

  lemma {:induction false} AlwaysConsistent(s: System, steps: seq<Step>)
    requires Consistent(s) && Admissible(s, steps)
    ensures Consistent(Exec(s, steps))
    decreases |steps|
  {
    if steps != [] {
      StepConsistent(s, steps[0]);
      AlwaysConsistent(Next(s, steps[0]), steps[1..]);
    }
  }

  // ---------------------------------------------------------------- each worker finds its own item

  /** An item without the marks that requests and forgets leave on it during processing. */
  function Unmarked(it: Item): Item {
    it.(redirtiedAt := ZERO_TIME, redirtiedWithRatelimit := false, forget := false)
  }

  /** What is in processing under a worker's key is the item the worker took, but for such marks. */
  ghost predicate OwnItems(s: System) {
    forall w :: w in s.workers && s.workers[w].Handling? ==>
      && s.workers[w].key in s.queue.processing && w in s.history.taken
      && Unmarked(s.queue.processing[s.workers[w].key]) == Unmarked(s.history.taken[w])
  }

  /** A queue operation leaves the items in processing but for their marks, except one that ends. */
  ghost predicate KeepsItems(q: State, q': State, ended: set<Key>) {
    forall k :: k in q.processing && k !in ended ==>
      k in q'.processing && Unmarked(q'.processing[k]) == Unmarked(q.processing[k])
  }

  lemma InsertKeepsItems(q: State, key: Key, ratelimit: bool, delay: Option<Duration>, now: Time, limiter: Duration)
    requires Inv(q)
    ensures KeepsItems(q, Insert(q, key, ratelimit, delay, now, limiter), {})
  {
    hide Inv, Find, Insert;
    InsertByKey(q, key, ratelimit, delay, now, limiter);
  }

  lemma ForgetKeepsItems(q: State, key: Key)
    requires Inv(q)
    ensures KeepsItems(q, Forget(q, key), {})
  {
    hide Inv, Find, Forget;
    ForgetByKey(q, key);
  }

  lemma CompleteKeepsItems(q: State, key: Key, failed: bool, verdict: Verdict,
                           measured: Time, now: Time, limiter: Duration)
    requires Inv(q) && key in q.processing
    ensures KeepsItems(q, Complete(q, key, failed, verdict, measured, now, limiter), {key})
  {
    hide Inv, Find, Complete;
    CompleteByKey(q, key, failed, verdict, measured, now, limiter);
  }

  /** A request, a forget or another key's completion leaves an item in processing but for its marks. */
  lemma QueueStepOwnItems(s: System, step: Step)
    requires Inv(s.queue) && OneHandlerEach(s.workers, s.queue.processing.Keys) && OwnItems(s) && Enabled(s, step)
    requires step.Request? || step.Drop? || step.Finish?
    ensures OwnItems(Next(s, step))
  {
    hide Inv, Insert, Forget, Complete, Unmarked;
    match step {
      case Request(key, ratelimit, delay, limiter) => InsertKeepsItems(s.queue, key, ratelimit, delay, s.clock,
          limiter);
      case Drop(key) => ForgetKeepsItems(s.queue, key);
      case Finish(w, failed, verdict, limiter, lag) =>
        CompleteKeepsItems(s.queue, s.workers[w].key, failed, verdict, s.clock - lag, s.clock, limiter);
        OthersHandleOtherKeys(s.workers, s.queue.processing.Keys, w);
    }
  }

  lemma OthersHandleOtherKeys(workers: map<Worker, Activity>, keys: set<Key>, w: Worker)
    requires OneHandlerEach(workers, keys) && w in workers && workers[w].Handling?
    ensures forall v :: v in workers && v != w && workers[v].Handling? ==> workers[v].key != workers[w].key
  {
  }

  lemma StartOwnItems(s: System, w: Worker)
    requires Inv(s.queue) && OneHandlerEach(s.workers, s.queue.processing.Keys) && OwnItems(s)
    requires s.queue.items != [] && w in s.workers
    ensures OwnItems(Start(s, w))
  {
    hide Inv, Find, Take;
    TakeByKey(s.queue);
  }

  lemma StepOwnItems(s: System, step: Step)
    requires Consistent(s) && OwnItems(s) && Enabled(s, step)
    ensures OwnItems(Next(s, step))
  {
    hide Inv, Find, Insert, Forget, Complete, Take, OneHolder, OneHandlerEach, Start;
    match step {
      case Look(w) => if Due(s.queue, s.clock) { StartOwnItems(s, w); }
      case Acquire(_) =>
      case Arm(_) =>
      case WakeByToken(_) =>
      case WakeByTimer(_) =>
      case Cancel(_) =>
      case Tick(_) =>
      case _ => QueueStepOwnItems(s, step);
    }
  }

  lemma {:induction false} AlwaysOwnItems(s: System, steps: seq<Step>)
    requires Consistent(s) && OwnItems(s) && Admissible(s, steps)
    ensures OwnItems(Exec(s, steps))
    decreases |steps|
  {
    hide Consistent, OwnItems;
    if steps != [] {
      StepConsistent(s, steps[0]);
      StepOwnItems(s, steps[0]);
      AlwaysOwnItems(Next(s, steps[0]), steps[1..]);
    }
  }

  /**
   Per-key mutual exclusion: in every run no two workers handle one key, a key being handled is
   not also waiting, and a handler that returns finds the very item its worker took in processing,
   changed at most by redirty and forget marks.
   */
  lemma MutualExclusion(clock: Time, workers: set<Worker>, steps: seq<Step>, v: Worker, w: Worker)
    requires Admissible(Initial(clock, workers), steps)
    ensures var s := Exec(Initial(clock, workers), steps);
      && (v in s.workers && w in s.workers && s.workers[v].Handling? && s.workers[v] == s.workers[w] ==> v == w)
      && (w in s.workers && s.workers[w].Handling? ==>
            && !Listed(s.queue.items, s.workers[w].key)
            && s.workers[w].key in s.queue.processing && w in s.history.taken
            && s.history.taken[w].key == s.workers[w].key
            && Unmarked(s.queue.processing[s.workers[w].key]) == Unmarked(s.history.taken[w]))
      && DistinctKeys(s.queue.items)
  {
    AlwaysConsistent(Initial(clock, workers), steps);
    AlwaysOwnItems(Initial(clock, workers), steps);
    var s := Exec(Initial(clock, workers), steps);
    if w in s.workers && s.workers[w].Handling? {
      assert s.queue.processing[s.workers[w].key].key == s.workers[w].key;
    }
  }
}
