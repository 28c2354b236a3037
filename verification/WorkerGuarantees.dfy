/** What every run of the queue with its workers keeps, and what it can always do next. */
module WorkerGuarantees {
  import opened Wrappers
  import opened WorkQueue
  import opened WorkerProtocol

  // ---------------------------------------------------------------- no lost wakeup

  /** A sleeper's view of the list is still right, or a token will wake it. */
  ghost predicate Alert(q: State, token: bool, a: Activity) {
    && (a.Sleeping? ==> token || q.items == [])
    && (a.Measured? || a.Napping? ==> token || q.items == [] || a.planned <= q.items[0].planned)
  }

  ghost predicate Awake(s: System) {
    && (forall w :: w in s.workers ==> Alert(s.queue, s.token, s.workers[w]))
    && (forall w :: w in s.workers && (s.workers[w].Measured? || s.workers[w].Napping?)
          ==> s.workers[w].lookedAt < s.workers[w].planned && s.workers[w].lookedAt <= s.clock)
    && (forall w :: w in s.workers && s.workers[w].Napping?
          ==> s.workers[w].lookedAt <= s.workers[w].armedAt <= s.clock)
  }

  /** Forgetting never makes the front of the list earlier. */
  lemma ForgetKeepsFront(q: State, key: Key)
    requires Inv(q)
    ensures var q' := Forget(q, key); q'.items == [] || (q.items != [] && q.items[0].planned <= q'.items[0].planned)
  {
    var q' := Forget(q, key);
    if Listed(q.items, key) && q'.items != [] {
      var i := IndexOf(q.items, key);
      assert q'.items[0] == if i == 0 then q.items[1] else q.items[0];
    }
  }

  lemma FinishKeepsFront(q: State, key: Key, failed: bool, verdict: Verdict,
                         measured: Time, now: Time, limiter: Duration)
    requires key in q.processing && !Reinserts(q.processing[key], failed, verdict)
    ensures Complete(q, key, failed, verdict, measured, now, limiter).items == q.items
  {
  }

  /** An operation that puts a token into the channel, or makes the front no earlier, keeps everyone alert. */
  lemma QueueStepAwake(s: System, step: Step)
    requires Consistent(s) && Awake(s) && Enabled(s, step) && (step.Request? || step.Drop? || step.Finish?)
    ensures Awake(Next(s, step))
  {
    hide Inv, Insert, Forget, Complete, Find, OneHandlerEach, OneHolder;
    match step {
      case Drop(key) => ForgetKeepsFront(s.queue, key);
      case Finish(w, failed, verdict, limiter, lag) =>
        if !Reinserts(s.queue.processing[s.workers[w].key], failed, verdict) {
          FinishKeepsFront(s.queue, s.workers[w].key, failed, verdict, s.clock - lag, s.clock, limiter);
        }
      case _ =>
    }
  }

  lemma StepAwake(s: System, step: Step)
    requires Consistent(s) && Awake(s) && Enabled(s, step)
    ensures Awake(Next(s, step))
  {
    hide Inv, Insert, Forget, Complete, Take, Find, OneHandlerEach;
    if step.Request? || step.Drop? || step.Finish? {
      QueueStepAwake(s, step);
    }
  }

  lemma {:induction false} AlwaysAwake(s: System, steps: seq<Step>)
    requires Consistent(s) && Awake(s) && Admissible(s, steps)
    ensures Consistent(Exec(s, steps)) && Awake(Exec(s, steps))
    decreases |steps|
  {
    hide Consistent, Awake;
    if steps != [] {
      StepConsistent(s, steps[0]);
      StepAwake(s, steps[0]);
      AlwaysAwake(Next(s, steps[0]), steps[1..]);
    }
  }

  /**
   No lost wakeup: in every run, a worker asleep in the waiting loop sleeps on an empty list or
   until an instant the front of the list is not planned before, or a token is waiting for it.
   The timer fires late by exactly the time that passed between measuring and arming it.
   */
  lemma NoLostWakeup(clock: Time, workers: set<Worker>, steps: seq<Step>, w: Worker)
    requires Admissible(Initial(clock, workers), steps)
    ensures var s := Exec(Initial(clock, workers), steps);
      w in s.workers ==>
        var a := s.workers[w];
        && (a.Sleeping? ==> s.token || s.queue.items == [])
        && (a.Measured? || a.Napping? ==> s.token || s.queue.items == [] || a.planned <= s.queue.items[0].planned)
        && (a.Napping? ==> Deadline(a) == a.planned + (a.armedAt - a.lookedAt) && a.planned <= Deadline(a))
  {
    AlwaysAwake(Initial(clock, workers), steps);
  }

  // ---------------------------------------------------------------- due work can always be taken

  predicate Free(a: Activity) {
    !a.Handling? && !a.Stopped?
  }

  /** How late the timer of the semaphore's holder is, or would be if made now. */
  function Lag(s: System): int {
    if s.semaphore.Some? && s.semaphore.value in s.workers then
      match s.workers[s.semaphore.value]
      case Measured(_, lookedAt) => s.clock - lookedAt
      case Napping(_, lookedAt, armedAt) => armedAt - lookedAt
      case _ => 0
    else 0
  }

  predicate WorkerSteps(steps: seq<Step>) {
    forall i :: 0 <= i < |steps| ==> !steps[i].Request? && !steps[i].Drop? && !steps[i].Finish? && !steps[i].Cancel?
  }

  ghost predicate Takes(s: System, steps: seq<Step>) {
    && Admissible(s, steps) && WorkerSteps(steps)
    && s.queue.items != []
    && Exec(s, steps).history.started == s.history.started + [s.queue.items[0].key]
    && Exec(s, steps).clock <= s.clock + (if Lag(s) > 0 then Lag(s) else 0)
  }

  lemma LookTakes(s: System, w: Worker)
    requires w in s.workers && s.workers[w].Looking? && Due(s.queue, s.clock)
    ensures Admissible(s, [Look(w)]) && Exec(s, [Look(w)]) == Start(s, w)
  {
  }

  lemma {:induction false} ExecSplits(s: System, a: seq<Step>, b: seq<Step>)
    requires Admissible(s, a) && Admissible(Exec(s, a), b)
    ensures Admissible(s, a + b) && Exec(s, a + b) == Exec(Exec(s, a), b)
    decreases |a|
  {
    hide Enabled, Next;
    if a == [] {
      assert a + b == b;
    } else {
      ExecSplits(Next(s, a[0]), a[1..], b);
      assert (a + b)[0] == a[0] && (a + b)[1..] == a[1..] + b;
    }
  }

  lemma NapTakes(s: System, w: Worker) returns (steps: seq<Step>)
    requires Consistent(s) && Awake(s) && Due(s.queue, s.clock)
    requires w in s.workers && s.workers[w].Napping? && s.semaphore == Some(w)
    ensures |steps| <= 3 && Takes(s, steps)
  {
    hide Inv, Find, Take, OneHandlerEach, Insert, Forget, Complete;
    if s.token {
      var s1 := Next(s, WakeByToken(w));
      LookTakes(s1, w);
      assert Exec(s, [WakeByToken(w)]) == s1;
      ExecSplits(s, [WakeByToken(w)], [Look(w)]);
      steps := [WakeByToken(w)] + [Look(w)];
    } else {
      var late := Deadline(s.workers[w]) - s.clock;
      var wait := if late > 0 then late else 0;
      var s1 := Next(s, Tick(wait));
      var s2 := Next(s1, WakeByTimer(w));
      LookTakes(s2, w);
      assert Exec(s, [Tick(wait)]) == s1;
      assert Exec(s1, [WakeByTimer(w)]) == s2;
      ExecSplits(s1, [WakeByTimer(w)], [Look(w)]);
      ExecSplits(s, [Tick(wait)], [WakeByTimer(w)] + [Look(w)]);
      steps := [Tick(wait)] + ([WakeByTimer(w)] + [Look(w)]);
    }
  }

  /**
   Whenever an item is due and some worker is neither handling nor stopped, the workers alone can
   start it within four steps, waiting no longer than the holder's timer lags.
   */
  lemma DueWorkCanBeTaken(clock: Time, workers: set<Worker>, run: seq<Step>, w: Worker) returns (steps: seq<Step>)
    requires Admissible(Initial(clock, workers), run)
    requires var s := Exec(Initial(clock, workers), run);
      Due(s.queue, s.clock) && w in s.workers && Free(s.workers[w])
    ensures var s := Exec(Initial(clock, workers), run); |steps| <= 4 && Takes(s, steps)
  {
    AlwaysAwake(Initial(clock, workers), run);
    var s := Exec(Initial(clock, workers), run);
    steps := TakeFrom(s, w);
  }

  lemma TakeFrom(s: System, w: Worker) returns (steps: seq<Step>)
    requires Consistent(s) && Awake(s) && Due(s.queue, s.clock) && w in s.workers && Free(s.workers[w])
    ensures |steps| <= 4 && Takes(s, steps)
  {
    hide Inv, Find, Take, OneHandlerEach, Insert, Forget, Complete;
    if s.semaphore.None? {
      var s1 := Next(s, Acquire(w));
      LookTakes(s1, w);
      assert Exec(s, [Acquire(w)]) == s1;
      ExecSplits(s, [Acquire(w)], [Look(w)]);
      return [Acquire(w)] + [Look(w)];
    }
    var h := s.semaphore.value;
    match s.workers[h] {
      case Looking =>
        LookTakes(s, h);
        steps := [Look(h)];
      case Sleeping =>
        var s1 := Next(s, WakeByToken(h));
        LookTakes(s1, h);
        assert Exec(s, [WakeByToken(h)]) == s1;
        ExecSplits(s, [WakeByToken(h)], [Look(h)]);
        steps := [WakeByToken(h)] + [Look(h)];
      case Measured(_, _) =>
        var s1 := Next(s, Arm(h));
        StepConsistent(s, Arm(h));
        StepAwake(s, Arm(h));
        var more := NapTakes(s1, h);
        assert Exec(s, [Arm(h)]) == s1;
        ExecSplits(s, [Arm(h)], more);
        steps := [Arm(h)] + more;
      case Napping(_, _, _) => steps := NapTakes(s, h);
    }
  }

  // ---------------------------------------------------------------- no lost update

  /** Every key still owed a handler start waits, or is marked to wait again once its handler returns. */
  ghost predicate Pending(q: State, key: Key) {
    || Listed(q.items, key)
    || (key in q.processing && !q.processing[key].forget && q.processing[key].redirtiedAt != ZERO_TIME)
  }

  ghost predicate NothingLost(s: System) {
    forall k :: k in s.history.owed ==> Pending(s.queue, k)
  }

  lemma StepLosesNothing(s: System, step: Step)
    requires Inv(s.queue) && NothingLost(s) && Enabled(s, step)
    ensures NothingLost(Next(s, step))
  {
    hide Sorted, DistinctKeys, Insert, Forget, Complete, Find, Take;
    match step {
      case Request(key, ratelimit, delay, limiter) => InsertByKey(s.queue, key, ratelimit, delay, s.clock, limiter);
      case Drop(key) => ForgetByKey(s.queue, key);
      case Look(w) => if Due(s.queue, s.clock) { TakeByKey(s.queue); }
      case Finish(w, failed, verdict, limiter, lag) =>
        CompleteByKey(s.queue, s.workers[w].key, failed, verdict, s.clock - lag, s.clock, limiter);
      case _ =>
    }
  }

  lemma {:induction false} AlwaysNothingLost(s: System, steps: seq<Step>)
    requires Consistent(s) && NothingLost(s) && Admissible(s, steps)
    ensures NothingLost(Exec(s, steps))
    decreases |steps|
  {
    hide NothingLost;
    if steps != [] {
      StepConsistent(s, steps[0]);
      StepLosesNothing(s, steps[0]);
      hide Consistent;
      AlwaysNothingLost(Next(s, steps[0]), steps[1..]);
    }
  }

  /**
   No lost update: in every run, through success, retry, give-up and forget-then-enqueue, a key
   enqueued since its last handler start and not forgotten since is waiting, or is in processing
   with a redirty recorded and no forget standing.
   */
  lemma NoLostUpdate(clock: Time, workers: set<Worker>, steps: seq<Step>, key: Key)
    requires Admissible(Initial(clock, workers), steps)
    ensures var s := Exec(Initial(clock, workers), steps);
      key in s.history.owed ==>
        || Listed(s.queue.items, key)
        || (key in s.queue.processing && !s.queue.processing[key].forget
            && s.queue.processing[key].redirtiedAt != ZERO_TIME)
  {
    AlwaysNothingLost(Initial(clock, workers), steps);
  }

  /**
   Why requests must not ask for the zero instant: a request made during processing brings the key
   back after a success exactly when its instant is not the zero one (or an even earlier one stands).
   */
  lemma RequestDuringProcessingSurvivesIff(q: State, key: Key, ratelimit: bool, delay: Option<Duration>,
                                           asked: Time, limiter: Duration, measured: Time, done: Time)
    requires Inv(q) && key in q.processing
    ensures var when := asked + delay.GetOr(0);
      var q1 := Insert(q, key, ratelimit, delay, asked, limiter);
      && key in q1.processing
      && (Listed(Complete(q1, key, false, GiveUp, measured, done, limiter).items, key)
          <==> when != ZERO_TIME || q.processing[key].redirtiedAt < ZERO_TIME)
  {
    InsertByKey(q, key, ratelimit, delay, asked, limiter);
    var q1 := Insert(q, key, ratelimit, delay, asked, limiter);
    CompleteByKey(q1, key, false, GiveUp, measured, done, limiter);
  }

  // ---------------------------------------------------------------- what is forgotten stays so

  /** The key does not wait, and will not after the handler that it may have. */
  predicate Dropped(q: State, key: Key) {
    !Listed(q.items, key) && (key in q.processing ==> q.processing[key].forget)
  }

  predicate Requests(step: Step, key: Key) {
    step.Request? && step.key == key
  }

  lemma DropDrops(s: System, key: Key)
    requires Inv(s.queue)
    ensures Dropped(Next(s, Drop(key)).queue, key)
  {
    ForgetByKey(s.queue, key);
  }

  lemma StepKeepsDropped(s: System, step: Step, key: Key)
    requires Inv(s.queue) && Dropped(s.queue, key) && Enabled(s, step) && !Requests(step, key)
    ensures Dropped(Next(s, step).queue, key)
    ensures Next(s, step).history.started != s.history.started ==>
      exists other :: other != key && Next(s, step).history.started == s.history.started + [other]
  {
    hide Inv, Find, Insert, Forget, Complete, Take;
    match step {
      case Request(other, ratelimit, delay, limiter) =>
        InsertByKey(s.queue, other, ratelimit, delay, s.clock, limiter);
      case Drop(other) => ForgetByKey(s.queue, other);
      case Look(w) => if Due(s.queue, s.clock) { TakeByKey(s.queue); }
      case Finish(w, failed, verdict, limiter, lag) =>
        CompleteByKey(s.queue, s.workers[w].key, failed, verdict, s.clock - lag, s.clock, limiter);
      case _ =>
    }
  }

  lemma {:induction false} StaysDropped(s: System, steps: seq<Step>, key: Key)
    requires Consistent(s) && Dropped(s.queue, key) && Admissible(s, steps)
    requires forall i :: 0 <= i < |steps| ==> !Requests(steps[i], key)
    ensures Dropped(Exec(s, steps).queue, key)
    ensures Count(Exec(s, steps).history.started, key) == Count(s.history.started, key)
    decreases |steps|
  {
    if steps != [] {
      StepConsistent(s, steps[0]);
      assert !Requests(steps[0], key);
      StepKeepsDropped(s, steps[0], key);
      hide Consistent, Dropped, Enabled, Next, Requests;
      StaysDropped(Next(s, steps[0]), steps[1..], key);
    }
  }

  /**
   What is forgotten stays so: after any run, once a key is dropped and until it is asked for again,
   it never waits and no handler starts for it, whatever the handler it may have returns and
   whatever the retry function says.
   */
  lemma DroppedIsNotStarted(clock: Time, workers: set<Worker>, before: seq<Step>, key: Key, after: seq<Step>)
    requires Admissible(Initial(clock, workers), before)
    requires Admissible(Next(Exec(Initial(clock, workers), before), Drop(key)), after)
    requires forall i :: 0 <= i < |after| ==> !(after[i].Request? && after[i].key == key)
    ensures var s := Exec(Initial(clock, workers), before); var s' := Exec(Next(s, Drop(key)), after);
      && !Listed(s'.queue.items, key)
      && multiset(s'.history.started)[key] == multiset(s.history.started)[key]
  {
    AlwaysConsistent(Initial(clock, workers), before);
    var s := Exec(Initial(clock, workers), before);
    hide Admissible, Exec, OneHolder, OneHandlerEach;
    StepConsistent(s, Drop(key));
    DropDrops(s, key);
    StaysDropped(Next(s, Drop(key)), after, key);
  }

  // ---------------------------------------------------------------- the redirty instant

  predicate IsLeast(t: Time, s: seq<Time>) {
    t in s && forall i :: 0 <= i < |s| ==> t <= s[i]
  }

  /** The redirty instant of an item in processing is the least one asked for since it started. */
  ghost predicate RemembersLeast(it: Item, asked: seq<Time>) {
    && (forall i :: 0 <= i < |asked| ==> asked[i] > ZERO_TIME)
    && if asked == [] then it.redirtiedAt == ZERO_TIME else IsLeast(it.redirtiedAt, asked)
  }

  ghost predicate LeastKept(s: System) {
    forall k :: k in s.queue.processing ==> RemembersLeast(s.queue.processing[k], AskedFor(s.history, k))
  }

  lemma RedirtyRemembersLeast(it: Item, asked: seq<Time>, when: Time, ratelimit: bool)
    requires RemembersLeast(it, asked) && when > ZERO_TIME
    ensures RemembersLeast(Redirty(it, when, ratelimit), asked + [when])
  {
    var after := asked + [when];
    assert after[|asked|] == when;
    if asked != [] {
      var i :| 0 <= i < |asked| && asked[i] == it.redirtiedAt;
      assert after[i] == it.redirtiedAt;
    }
  }

  lemma ForgetRemembersLeast(it: Item, asked: seq<Time>)
    requires RemembersLeast(it, asked)
    ensures RemembersLeast(it.(forget := true), asked)
  {
  }

  lemma FreshRemembersNothing(it: Item)
    requires it.redirtiedAt == ZERO_TIME
    ensures RemembersLeast(it, [])
  {
  }

  lemma StepKeepsLeast(s: System, step: Step)
    requires Inv(s.queue) && LeastKept(s) && Enabled(s, step)
    ensures LeastKept(Next(s, step))
  {
    hide Insert, Forget, Complete, Find, Take, Sorted, DistinctKeys, RemembersLeast;
    var s' := Next(s, step);
    match step {
      case Request(key, ratelimit, delay, limiter) =>
        InsertByKey(s.queue, key, ratelimit, delay, s.clock, limiter);
        if key in s.queue.processing {
          RedirtyRemembersLeast(s.queue.processing[key], AskedFor(s.history, key), When(s, step), ratelimit);
        }
      case Drop(key) =>
        ForgetByKey(s.queue, key);
        if key in s.queue.processing {
          ForgetRemembersLeast(s.queue.processing[key], AskedFor(s.history, key));
        }
      case Look(w) =>
        if Due(s.queue, s.clock) {
          TakeByKey(s.queue);
          assert RemembersLeast(s.queue.items[0], []) by {
            assert s.queue.items[0] in s.queue.items;
            FreshRemembersNothing(s.queue.items[0]);
          }
        }
      case Finish(w, failed, verdict, limiter, lag) =>
        CompleteByKey(s.queue, s.workers[w].key, failed, verdict, s.clock - lag, s.clock, limiter);
      case _ =>
    }
  }

  lemma {:induction false} AlwaysKeepsLeast(s: System, steps: seq<Step>)
    requires Consistent(s) && LeastKept(s) && Admissible(s, steps)
    ensures LeastKept(Exec(s, steps))
    decreases |steps|
  {
    hide LeastKept;
    if steps != [] {
      StepConsistent(s, steps[0]);
      StepKeepsLeast(s, steps[0]);
      hide Consistent;
      AlwaysKeepsLeast(Next(s, steps[0]), steps[1..]);
    }
  }

  /**
   The requeue that follows a handler of an item whose redirty instant is the least asked for: none
   if the item is forgotten, whatever the handler returned. The lag is the time between the two
   readings of the clock, for the delay and for the insertion.
   */
  ghost predicate RequeuesByLeast(q: State, q': State, key: Key, retried: bool, asked: seq<Time>,
                                  retryAt: Time, lag: Duration)
    requires key in q.processing
  {
    var it, after := q.processing[key], Find(q'.items, key);
    if it.forget then after.None?
    else if retried then
      after.Some? && after.value.planned == retryAt && after.value.requeues == it.requeues + 1
    else if asked == [] then after.None?
    else after.Some? && IsLeast(after.value.planned - lag, asked) && after.value.requeues == 0
  }

  /** The instant a retried key is planned for. */
  function RetryAt(verdict: Verdict, now: Time, limiter: Duration): Time {
    now + (if verdict.Retry? then verdict.delay.GetOr(limiter) else limiter)
  }

  lemma CompleteRequeuesByLeast(q: State, key: Key, asked: seq<Time>, failed: bool, verdict: Verdict,
                                measured: Time, now: Time, limiter: Duration)
    requires Inv(q) && key in q.processing && RemembersLeast(q.processing[key], asked)
    ensures RequeuesByLeast(q, Complete(q, key, failed, verdict, measured, now, limiter), key,
                            failed && verdict.Retry?, asked,
                            RetryAt(verdict, now, limiter), now - measured)
  {
    hide Inv, Complete, Find, OthersUnchanged;
    CompleteByKey(q, key, failed, verdict, measured, now, limiter);
  }

  lemma FinishRequeuesByLeast(s: System, done: Step)
    requires Consistent(s) && LeastKept(s) && Enabled(s, done) && done.Finish?
    ensures var key := s.workers[done.w].key;
      RequeuesByLeast(s.queue, Next(s, done).queue, key,
                      done.failed && done.verdict.Retry?, AskedFor(s.history, key),
                      RetryAt(done.verdict, s.clock, done.limiter), done.lag)
  {
    hide Inv, Complete, Find, RemembersLeast, RequeuesByLeast, OneHandlerEach, OneHolder;
    var key := s.workers[done.w].key;
    CompleteRequeuesByLeast(s.queue, key, AskedFor(s.history, key), done.failed, done.verdict,
                            s.clock - done.lag, s.clock, done.limiter);
    assert s.clock - (s.clock - done.lag) == done.lag;
  }

  /**
   When a handler returns, in any run, on a key not forgotten: if it succeeded or is given up, the
   key waits again exactly when it was asked for since the handler started, as a new item planned
   for the least instant asked for, late by exactly the time between the completion's two readings
   of the clock; if it is retried, the instants asked for are dropped and the key is planned by the
   retry delay, or else the rate limiter, alone.
   */
  lemma RequeuedAtLeastInstant(clock: Time, workers: set<Worker>, steps: seq<Step>, done: Step)
    requires Admissible(Initial(clock, workers), steps)
    requires Enabled(Exec(Initial(clock, workers), steps), done) && done.Finish?
    ensures var s := Exec(Initial(clock, workers), steps);
      var key := s.workers[done.w].key;
      RequeuesByLeast(s.queue, Next(s, done).queue, key,
                      done.failed && done.verdict.Retry?, AskedFor(s.history, key),
                      RetryAt(done.verdict, s.clock, done.limiter), done.lag)
  {
    AlwaysConsistent(Initial(clock, workers), steps);
    AlwaysKeepsLeast(Initial(clock, workers), steps);
    FinishRequeuesByLeast(Exec(Initial(clock, workers), steps), done);
  }

  /** A retry is planned no later than every instant asked for exactly when its own delay ends by the least one. */
  lemma RetryHonoursLeast(s: System, done: Step)
    requires Consistent(s) && LeastKept(s) && Enabled(s, done) && done.Finish?
    requires var key := s.workers[done.w].key;
      && !s.queue.processing[key].forget && done.failed && done.verdict.Retry?
      && AskedFor(s.history, key) != []
    ensures var key := s.workers[done.w].key; var asked := AskedFor(s.history, key);
      var after := Find(Next(s, done).queue.items, key);
      && after.Some? && after.value.redirtiedAt == ZERO_TIME
      && ((forall i :: 0 <= i < |asked| ==> after.value.planned <= asked[i]) <==>
            RetryAt(done.verdict, s.clock, done.limiter) <= s.queue.processing[key].redirtiedAt)
  {
    hide Inv, Complete, Find, OneHandlerEach, OneHolder;
    var key := s.workers[done.w].key;
    CompleteByKey(s.queue, key, done.failed, done.verdict, s.clock - done.lag, s.clock, done.limiter);
    assert RemembersLeast(s.queue.processing[key], AskedFor(s.history, key));
  }

  /**
   A retry does not keep the redirty instant: in every run, a key that fails and is retried after
   it was asked for again is in time for every one of these requests exactly when its retry delay
   happens to end no later than the instant recorded for it.
   */
  lemma RetryHonoursRequestsIff(clock: Time, workers: set<Worker>, steps: seq<Step>, done: Step)
    requires Admissible(Initial(clock, workers), steps)
    requires Enabled(Exec(Initial(clock, workers), steps), done) && done.Finish?
    requires var s := Exec(Initial(clock, workers), steps); var key := s.workers[done.w].key;
      && !s.queue.processing[key].forget && done.failed && done.verdict.Retry?
      && AskedFor(s.history, key) != []
    ensures var s := Exec(Initial(clock, workers), steps); var key := s.workers[done.w].key;
      var asked, after := AskedFor(s.history, key), Find(Next(s, done).queue.items, key);
      && after.Some?
      && ((forall i :: 0 <= i < |asked| ==> after.value.planned <= asked[i]) <==>
            RetryAt(done.verdict, s.clock, done.limiter) <= s.queue.processing[key].redirtiedAt)
  {
    AlwaysConsistent(Initial(clock, workers), steps);
    AlwaysKeepsLeast(Initial(clock, workers), steps);
    RetryHonoursLeast(Exec(Initial(clock, workers), steps), done);
  }

  // ---------------------------------------------------------------- bounded work

  /** Handler starts a key may still cause by itself: its retries, and a full round per recorded redirty. */
  function StartsLeft(q: State, key: Key): int {
    match Find(q.items, key)
    case Some(it) => MAX_RETRIES - it.requeues
    case None =>
      if key in q.processing then
        MAX_RETRIES - 1 - q.processing[key].requeues
        + (if q.processing[key].redirtiedAt != ZERO_TIME then MAX_RETRIES else 0)
      else 0
  }

  function Count(s: seq<Key>, key: Key): nat {
    multiset(s)[key]
  }

  ghost predicate WithinBudget(q: State, h: History, key: Key) {
    && (Listed(q.items, key) ==> Find(q.items, key).value.requeues < MAX_RETRIES)
    && (key in q.processing ==> q.processing[key].requeues < MAX_RETRIES)
    && Count(h.started, key) + StartsLeft(q, key) <= MAX_RETRIES * Count(h.enqueued, key)
  }

  ghost predicate Bounded(s: System) {
    forall k :: WithinBudget(s.queue, s.history, k)
  }

  /** The default retry function gave the verdict of a step. */
  predicate RetriesByDefault(s: System, step: Step)
    requires Enabled(s, step)
  {
    step.Finish? ==> step.verdict == DefaultRetry(s.queue.processing[s.workers[step.w].key].requeues + 1)
  }

  predicate DefaultRun(s: System, steps: seq<Step>)
    requires Admissible(s, steps)
    decreases |steps|
  {
    steps == [] || (RetriesByDefault(s, steps[0]) && DefaultRun(Next(s, steps[0]), steps[1..]))
  }

  lemma CountAppend(s: seq<Key>, key: Key)
    ensures forall k :: Count(s + [key], k) == Count(s, k) + (if k == key then 1 else 0)
  {
  }

  lemma OtherKeyWithinBudget(q: State, q': State, h: History, h': History, touched: Key, key: Key)
    requires OthersUnchanged(q, q', touched) && key != touched && WithinBudget(q, h, key)
    requires Count(h'.started, key) == Count(h.started, key) && Count(h'.enqueued, key) == Count(h.enqueued, key)
    ensures WithinBudget(q', h', key)
  {
    hide Find, Count;
  }

  lemma RequestWithinBudget(s: System, step: Step, key: Key)
    requires Inv(s.queue) && WithinBudget(s.queue, s.history, key) && Enabled(s, step) && step.Request?
    ensures WithinBudget(Next(s, step).queue, Next(s, step).history, key)
  {
    InsertByKey(s.queue, step.key, step.ratelimit, step.delay, s.clock, step.limiter);
    CountAppend(s.history.enqueued, step.key);
    hide Sorted, DistinctKeys, Insert, Find, Count;
    if key != step.key {
      OtherKeyWithinBudget(s.queue, Next(s, step).queue, s.history, Next(s, step).history, step.key, key);
    }
  }

  lemma StartWithinBudget(s: System, w: Worker, key: Key)
    requires Inv(s.queue) && WithinBudget(s.queue, s.history, key) && s.queue.items != []
    ensures WithinBudget(Start(s, w).queue, Start(s, w).history, key)
  {
    TakeByKey(s.queue);
    CountAppend(s.history.started, s.queue.items[0].key);
    hide Inv, Sorted, DistinctKeys, Take, Find, Count;
    if key != s.queue.items[0].key {
      OtherKeyWithinBudget(s.queue, Start(s, w).queue, s.history, Start(s, w).history, s.queue.items[0].key, key);
    }
  }

  lemma CompleteWithinBudget(q: State, h: History, key: Key, failed: bool, verdict: Verdict,
                             measured: Time, now: Time, limiter: Duration)
    requires Inv(q) && key in q.processing && WithinBudget(q, h, key)
    requires verdict == DefaultRetry(q.processing[key].requeues + 1)
    ensures WithinBudget(Complete(q, key, failed, verdict, measured, now, limiter), h, key)
  {
    CompleteByKey(q, key, failed, verdict, measured, now, limiter);
    hide Sorted, DistinctKeys, Complete, Find, Count;
  }

  lemma FinishWithinBudget(s: System, step: Step, key: Key)
    requires Inv(s.queue) && WithinBudget(s.queue, s.history, key)
    requires Enabled(s, step) && step.Finish? && RetriesByDefault(s, step)
    ensures WithinBudget(Next(s, step).queue, Next(s, step).history, key)
  {
    hide Inv, Complete, Find, Count, WithinBudget;
    var done := s.workers[step.w].key;
    if key == done {
      CompleteWithinBudget(s.queue, s.history, key, step.failed, step.verdict, s.clock - step.lag, s.clock,
          step.limiter);
    } else {
      CompleteByKey(s.queue, done, step.failed, step.verdict, s.clock - step.lag, s.clock, step.limiter);
      OtherKeyWithinBudget(s.queue, Next(s, step).queue, s.history, Next(s, step).history, done, key);
    }
  }

  lemma StepWithinBudget(s: System, step: Step, key: Key)
    requires Inv(s.queue) && WithinBudget(s.queue, s.history, key) && Enabled(s, step) && RetriesByDefault(s, step)
    ensures WithinBudget(Next(s, step).queue, Next(s, step).history, key)
  {
    match step {
      case Request(_, _, _, _) => RequestWithinBudget(s, step, key);
      case Drop(dropped) =>
        ForgetByKey(s.queue, dropped);
        hide Sorted, DistinctKeys, Forget, Find, Count;
        if key != dropped {
          OtherKeyWithinBudget(s.queue, Next(s, step).queue, s.history, Next(s, step).history, dropped, key);
        }
      case Look(w) => if Due(s.queue, s.clock) { StartWithinBudget(s, w, key); }
      case Finish(_, _, _, _, _) => FinishWithinBudget(s, step, key);
      case _ =>
    }
  }

  lemma StepBounded(s: System, step: Step)
    requires Inv(s.queue) && Bounded(s) && Enabled(s, step) && RetriesByDefault(s, step)
    ensures Bounded(Next(s, step))
  {
    hide Inv, WithinBudget, Enabled, RetriesByDefault, Next;
    forall k ensures WithinBudget(Next(s, step).queue, Next(s, step).history, k) {
      StepWithinBudget(s, step, k);
    }
  }

  lemma {:induction false} AlwaysBounded(s: System, steps: seq<Step>)
    requires Consistent(s) && Bounded(s) && Admissible(s, steps) && DefaultRun(s, steps)
    ensures Consistent(Exec(s, steps)) && Bounded(Exec(s, steps))
    decreases |steps|
  {
    hide Bounded;
    if steps != [] {
      StepConsistent(s, steps[0]);
      StepBounded(s, steps[0]);
      hide Consistent;
      AlwaysBounded(Next(s, steps[0]), steps[1..]);
    }
  }

  function Repeat(s: seq<Key>, n: nat): seq<Key> {
    if n == 0 then [] else s + Repeat(s, n - 1)
  }

  lemma {:induction false} RepeatCounts(s: seq<Key>, n: nat, key: Key)
    ensures |Repeat(s, n)| == n * |s|
    ensures Count(Repeat(s, n), key) == n * Count(s, key)
  {
    if n != 0 {
      RepeatCounts(s, n - 1, key);
      var rest := Repeat(s, n - 1);
      assert multiset(s + rest) == multiset(s) + multiset(rest);
      assert n * Count(s, key) == Count(s, key) + (n - 1) * Count(s, key);
      assert n * |s| == |s| + (n - 1) * |s|;
    }
  }

  lemma FewerOfEachIsShorter(a: seq<Key>, b: seq<Key>)
    requires forall k :: Count(a, k) <= Count(b, k)
    ensures |a| <= |b|
  {
    forall k ensures multiset(a)[k] <= multiset(b)[k] {
      assert Count(a, k) <= Count(b, k);
    }
    assert multiset(b) == multiset(a) + (multiset(b) - multiset(a));
  }

  /**
   Bounded work: with the default retry function every item has been requeued fewer than the
   maximal number of times, and in every run the handler was started, for each key and in all, at
   most that many times per enqueue.
   */
  lemma BoundedWork(clock: Time, workers: set<Worker>, steps: seq<Step>, key: Key)
    requires Admissible(Initial(clock, workers), steps) && DefaultRun(Initial(clock, workers), steps)
    ensures var s := Exec(Initial(clock, workers), steps);
      && Count(s.history.started, key) <= MAX_RETRIES * Count(s.history.enqueued, key)
      && |s.history.started| <= MAX_RETRIES * |s.history.enqueued|
      && (Listed(s.queue.items, key) ==> Find(s.queue.items, key).value.requeues < MAX_RETRIES)
  {
    AlwaysBounded(Initial(clock, workers), steps);
    var s := Exec(Initial(clock, workers), steps);
    assert WithinBudget(s.queue, s.history, key);
    var bound := Repeat(s.history.enqueued, MAX_RETRIES);
    RepeatCounts(s.history.enqueued, MAX_RETRIES, key);
    forall k ensures Count(s.history.started, k) <= Count(bound, k) {
      RepeatCounts(s.history.enqueued, MAX_RETRIES, k);
      assert WithinBudget(s.queue, s.history, k);
    }
    FewerOfEachIsShorter(s.history.started, bound);
  }

  // ---------------------------------------------------------------- the bound is reached

  lemma PrependDefault(s: System, step: Step, rest: seq<Step>)
    requires Enabled(s, step) && RetriesByDefault(s, step)
    requires Admissible(Next(s, step), rest) && DefaultRun(Next(s, step), rest)
    ensures var steps := [step] + rest;
      Admissible(s, steps) && DefaultRun(s, steps) && Exec(s, steps) == Exec(Next(s, step), rest)
  {
    hide Enabled, RetriesByDefault, Next;
    assert ([step] + rest)[1..] == rest;
  }

  /** The only worker is idle and the only key waits, due, after this many failures. */
  ghost predicate FailedTimes(s: System, key: Key, failures: nat) {
    && s.workers == map[0 := Idle] && s.semaphore == None
    && (exists it :: s.queue == State([it], map[]) && it.key == key && it.planned <= s.clock
          && it.requeues == failures && it.redirtiedAt == ZERO_TIME && !it.forget)
    && s.history.enqueued == [key] && |s.history.started| == failures
  }

  lemma TakeOnly(s: System, key: Key, failures: nat)
    requires FailedTimes(s, key, failures)
    ensures Enabled(s, Acquire(0)) && Enabled(Next(s, Acquire(0)), Look(0))
    ensures var s2 := Next(Next(s, Acquire(0)), Look(0));
      && s2.workers == map[0 := Handling(key)] && s2.semaphore == None && s2.clock == s.clock
      && s2.queue.items == [] && s2.queue.processing.Keys == {key}
      && s2.queue.processing[key].key == key && s2.queue.processing[key].requeues == failures
      && s2.queue.processing[key].redirtiedAt == ZERO_TIME && !s2.queue.processing[key].forget
      && s2.history.enqueued == [key] && |s2.history.started| == failures + 1
  {
  }

  lemma FailOnce(s: System, key: Key, failures: nat)
    requires s.workers == map[0 := Handling(key)] && s.semaphore == None
    requires s.queue.items == [] && s.queue.processing.Keys == {key}
    requires var it := s.queue.processing[key];
      it.key == key && it.requeues == failures && it.redirtiedAt == ZERO_TIME && !it.forget
    requires s.history.enqueued == [key] && |s.history.started| == failures + 1
    ensures var done := Finish(0, true, DefaultRetry(failures + 1), 0, 0);
      && Enabled(s, done) && RetriesByDefault(s, done)
      && Next(s, done).history == s.history
      && (failures + 1 < MAX_RETRIES ==> FailedTimes(Next(s, done), key, failures + 1))
  {
    var done := Finish(0, true, DefaultRetry(failures + 1), 0, 0);
    var it := s.queue.processing[key];
    var again := RetryItem(it, None, s.clock, 0);
    assert s.queue.processing - {key} == map[];
    assert Place([], again) == [again];
    if failures + 1 < MAX_RETRIES {
      assert Next(s, done).queue == State([again], map[]);
    }
  }

  lemma {:induction false} FailUntilGivenUp(s: System, key: Key, failures: nat) returns (steps: seq<Step>)
    requires failures < MAX_RETRIES && FailedTimes(s, key, failures)
    ensures Admissible(s, steps) && DefaultRun(s, steps)
    ensures Exec(s, steps).history.enqueued == [key] && |Exec(s, steps).history.started| == MAX_RETRIES
    decreases MAX_RETRIES - failures
  {
    hide FailedTimes, Enabled, Next;
    var done := Finish(0, true, DefaultRetry(failures + 1), 0, 0);
    TakeOnly(s, key, failures);
    var s2 := Next(Next(s, Acquire(0)), Look(0));
    FailOnce(s2, key, failures);
    var s3 := Next(s2, done);
    steps := [];
    if failures + 1 < MAX_RETRIES {
      steps := FailUntilGivenUp(s3, key, failures + 1);
    }
    PrependDefault(s2, done, steps);
    PrependDefault(Next(s, Acquire(0)), Look(0), [done] + steps);
    PrependDefault(s, Acquire(0), [Look(0)] + ([done] + steps));
    steps := [Acquire(0)] + ([Look(0)] + ([done] + steps));
  }

  /** The bound is sharp: one enqueue of any key can cause exactly the maximal number of handler starts. */
  lemma BoundIsReached(key: Key) returns (steps: seq<Step>)
    ensures Admissible(Initial(1, {0}), steps) && DefaultRun(Initial(1, {0}), steps)
    ensures var s := Exec(Initial(1, {0}), steps);
      |s.history.enqueued| == 1 && |s.history.started| == MAX_RETRIES
  {
    var s, request := Initial(1, {0}), Request(key, false, None, 0);
    var it := Fresh(key, false, None, 1, 0);
    assert Place([], it) == [it];
    assert Next(s, request).queue == State([it], map[]);
    assert FailedTimes(Next(s, request), key, 0);
    steps := FailUntilGivenUp(Next(s, request), key, 0);
    PrependDefault(s, request, steps);
    steps := [request] + steps;
  }
}
