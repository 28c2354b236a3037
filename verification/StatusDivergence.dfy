/**
 What goes wrong when a read or a learning of a pod is not careful: the conditions of StatusSync
 cannot be weakened, and the runs that show it.
 */
module StatusDivergence {
  import opened Wrappers
  import opened WorkQueue
  import opened StatusSync

  /** Nobody will handle the key again, and what it should have is not there. */
  predicate Diverged(s: System, key: Key) {
    && Tracked(s, key) && key !in s.handlers && !Awaited(s, key) && key !in s.givenUp
    && s.known[key].last.status != s.api[key].status && !Terminal(s.api[key].status)
  }

  lemma Prepend(s: System, step: Step, rest: seq<Step>)
    requires Enabled(s, step) && Admissible(Next(s, step), rest)
    ensures Admissible(s, [step] + rest) && Exec(s, [step] + rest) == Exec(Next(s, step), rest)
  {
    hide Enabled, Next;
    assert ([step] + rest)[1..] == rest;
  }

  lemma {:induction false} Joined(s: System, a: seq<Step>, b: seq<Step>)
    requires Admissible(s, a) && Admissible(Exec(s, a), b)
    ensures Admissible(s, a + b) && Exec(s, a + b) == Exec(Exec(s, a), b)
    decreases |a|
  {
    hide Enabled, Next;
    assert a == [] ==> a + b == b;
    if a != [] {
      Joined(Next(s, a[0]), a[1..], b);
      Prepend(s, a[0], a[1..] + b);
      assert a + b == [a[0]] + (a[1..] + b);
    }
  }

  // ---------------------------------------------------------------- the conditions are the weakest

  /** How a key is left alone once it is tracked and nobody awaits it. */
  predicate LeftAlone(s: System, key: Key) {
    Tracked(s, key) && !Awaited(s, key) && key !in s.givenUp
  }

  function FinishOf(key: Key): Step {
    Finish(key, GiveUp, 1, 1, 0)
  }

  /** A handler that has done its work without an error ends; the key stays as it is. */
  lemma DoneEnds(s: System, key: Key)
    requires QueueConsistent(s.queue, s.handlers) && LeftAlone(s, key) && PhaseOf(s, key) == Some(Done(false))
    ensures Enabled(s, FinishOf(key))
    ensures var s' := Next(s, FinishOf(key));
      && LeftAlone(s', key) && key !in s'.handlers && s'.api == s.api && s'.known == s.known
  {
    hide Inv, Find, Complete;
    CompleteByKey(s.queue, key, false, GiveUp, 1, 1, 0);
  }

  lemma DoneDiverges(s: System, key: Key) returns (more: seq<Step>)
    requires QueueConsistent(s.queue, s.handlers) && LeftAlone(s, key) && !OnCourse(s, key)
    requires PhaseOf(s, key) == Some(Done(false))
    ensures |more| <= 1 && Admissible(s, more) && Diverged(Exec(s, more), key)
  {
    hide Inv, Find, Complete, Awaited, Terminal, QueueConsistent;
    DoneEnds(s, key);
    more := [FinishOf(key)];
    Prepend(s, FinishOf(key), []);
    assert more == [FinishOf(key)] + [];
  }

  lemma PatchingDiverges(s: System, key: Key) returns (more: seq<Step>)
    requires QueueConsistent(s.queue, s.handlers) && LeftAlone(s, key) && !OnCourse(s, key)
    requires key in s.handlers && s.handlers[key].Patching?
    ensures |more| <= 2 && Admissible(s, more) && Diverged(Exec(s, more), key)
  {
    hide Inv, Find, Complete, Terminal, MergePatch, Diverged;
    var step := Patch(key, Applied);
    var rest := DoneDiverges(Next(s, step), key);
    Prepend(s, step, rest);
    more := [step] + rest;
  }

  lemma FetchedDiverges(s: System, key: Key) returns (more: seq<Step>)
    requires QueueConsistent(s.queue, s.handlers) && LeftAlone(s, key) && !OnCourse(s, key)
    requires key in s.handlers && s.handlers[key].Fetched?
    ensures |more| <= 3 && Admissible(s, more) && Diverged(Exec(s, more), key)
  {
    hide Inv, Find, Complete, Terminal, MergePatch, Diverged;
    var step := ReadStored(key);
    var s' := Next(s, step);
    var rest;
    if Terminal(s.handlers[key].base) {
      rest := DoneDiverges(s', key);
    } else {
      rest := PatchingDiverges(s', key);
    }
    Prepend(s, step, rest);
    more := [step] + rest;
  }

  /** A key that is left alone and off course diverges as soon as its handler, if any, goes on. */
  lemma OffCourseDiverges(s: System, key: Key) returns (more: seq<Step>)
    requires QueueConsistent(s.queue, s.handlers) && LeftAlone(s, key) && !OnCourse(s, key)
    ensures |more| <= 3 && Admissible(s, more) && Diverged(Exec(s, more), key)
  {
    hide Inv, Find, Complete, Terminal, MergePatch;
    match PhaseOf(s, key) {
      case None => more := [];
      case Some(Fetched(_)) => more := FetchedDiverges(s, key);
      case Some(Patching(_, _)) => more := PatchingDiverges(s, key);
      case Some(Done(_)) => more := DoneDiverges(s, key);
    }
  }

  /**
   The conditions on reads and learnings are exact: after any run, a read or a learning that is not
   careful can be followed by at most the rest of the handler's own steps, all successful, and the
   key is left with a status in the API server that is not the last one of the provider.
   */
  lemma CarelessStepDiverges(steps: seq<Step>, step: Step) returns (more: seq<Step>)
    requires Admissible(INITIAL, steps)
    requires Enabled(Exec(INITIAL, steps), step) && !Careful(Exec(INITIAL, steps), step)
    ensures |more| <= 3
    ensures var s := Next(Exec(INITIAL, steps), step);
      Admissible(s, more) && Diverged(Exec(s, more), step.key)
  {
    AlwaysConsistent(INITIAL, steps);
    StepConsistent(Exec(INITIAL, steps), step);
    hide Inv, Find, Terminal, MergePatch, Awaited, Diverged, Exec, Admissible;
    CarelessIsOffCourse(Exec(INITIAL, steps), step);
    more := OffCourseDiverges(Next(Exec(INITIAL, steps), step), step.key);
  }

  lemma CarelessIsOffCourse(s: System, step: Step)
    requires Enabled(s, step) && !Careful(s, step)
    ensures LeftAlone(Next(s, step), step.key) && !OnCourse(Next(s, step), step.key)
  {
    hide Terminal, MergePatch;
  }

  // ---------------------------------------------------------------- a stale read

  /** Nobody is at work. */
  predicate Resting(s: System) {
    s.announcing == multiset{} && s.queue == EMPTY && s.handlers == map[] && s.givenUp == {}
  }

  function ItemOf(key: Key): Item {
    Fresh(key, true, None, 1, 0)
  }

  /** A provider status is stored and the handler of its key has read everything it needs. */
  function Stored(s: System, key: Key, reported: ProviderPod, base: Status): System
    requires key in s.known
  {
    s.(known := s.known[key := s.known[key].(last := reported)],
       queue := State([], map[key := ItemOf(key)]),
       handlers := map[key := Patching(base, reported.status)])
  }

  lemma Announced(s: System, key: Key, reported: ProviderPod) returns (steps: seq<Step>)
    requires Resting(s) && key in s.known && s.known[key].last != reported
    ensures Admissible(s, steps)
    ensures Exec(s, steps) == s.(known := s.known[key := s.known[key].(last := reported)],
                                 queue := State([], map[key := ItemOf(key)]), handlers := map[key := Started])
  {
    var s1 := Next(s, Store(key, reported));
    var s2 := s1.(announcing := multiset{}, queue := State([ItemOf(key)], map[]));
    assert Next(s1, Enqueue(key, 1, 0)) == s2;
    Prepend(s2, Take(1), []);
    Prepend(s1, Enqueue(key, 1, 0), [Take(1)] + []);
    Prepend(s, Store(key, reported), [Enqueue(key, 1, 0)] + ([Take(1)] + []));
    steps := [Store(key, reported)] + ([Enqueue(key, 1, 0)] + ([Take(1)] + []));
  }

  lemma ReadForPatch(s: System, key: Key, reported: ProviderPod, base: ApiPod) returns (steps: seq<Step>)
    requires Resting(s) && key in s.known && s.known[key].last != reported
    requires (key, base) in s.past && !Terminal(base.status)
    ensures Admissible(s, steps) && Exec(s, steps) == Stored(s, key, reported, base.status)
  {
    var first := Announced(s, key, reported);
    hide Terminal;
    var s1 := Exec(s, first);
    var s2 := Next(s1, Fetch(key, Seen(base)));
    assert Next(s2, ReadStored(key)) == Stored(s, key, reported, base.status);
    Prepend(s2, ReadStored(key), []);
    Prepend(s1, Fetch(key, Seen(base)), [ReadStored(key)] + []);
    Joined(s, first, [Fetch(key, Seen(base))] + ([ReadStored(key)] + []));
    steps := first + ([Fetch(key, Seen(base))] + ([ReadStored(key)] + []));
  }

  /** The patch is applied and its handler ends without an error. */
  lemma PatchAndFinish(s: System, key: Key) returns (steps: seq<Step>)
    requires s.announcing == multiset{} && s.queue == State([], map[key := ItemOf(key)]) && s.givenUp == {}
    requires key in s.api && s.handlers.Keys == {key} && s.handlers[key].Patching?
    ensures Admissible(s, steps)
    ensures var p := s.handlers[key];
      var pod := s.api[key].(status := MergePatch(s.api[key].status, p.base, p.status));
      Exec(s, steps) == SetPod(s, key, pod).(queue := EMPTY, handlers := map[])
  {
    hide MergePatch;
    var p := s.handlers[key];
    var pod := s.api[key].(status := MergePatch(s.api[key].status, p.base, p.status));
    var s1 := Next(s, Patch(key, Applied));
    assert s1.handlers - {key} == map[] && s1.queue.processing - {key} == map[];
    assert Next(s1, FinishOf(key)) == SetPod(s, key, pod).(queue := EMPTY, handlers := map[]);
    Prepend(s1, FinishOf(key), []);
    Prepend(s, Patch(key, Applied), [FinishOf(key)] + []);
    steps := [Patch(key, Applied)] + ([FinishOf(key)] + []);
  }

  /** One status is stored and written, by a handler that read the given version. */
  lemma Round(s: System, key: Key, reported: ProviderPod, base: ApiPod) returns (steps: seq<Step>)
    requires Resting(s) && key in s.known && s.known[key].last != reported && key in s.api
    requires (key, base) in s.past && !Terminal(base.status)
    ensures Admissible(s, steps)
    ensures var pod := s.api[key].(status := MergePatch(s.api[key].status, base.status, reported.status));
      Exec(s, steps) == SetPod(s, key, pod).(known := s.known[key := s.known[key].(last := reported)])
  {
    hide MergePatch, Terminal;
    var first := ReadForPatch(s, key, reported, base);
    var second := PatchAndFinish(Stored(s, key, reported, base.status), key);
    Joined(s, first, second);
    steps := first + second;
  }

  lemma Learned(key: Key, status: Status) returns (steps: seq<Step>)
    ensures Admissible(INITIAL, steps)
    ensures var pod := ApiPod(0, status);
      Exec(INITIAL, steps) == System(map[key := pod], {(key, pod)}, 1, map[key := KnownPod(0, ProviderPod(status, ""))],
                                     multiset{}, EMPTY, map[], {})
  {
    var pod := ApiPod(0, status);
    var s1 := Next(INITIAL, CreatePod(key, status));
    Prepend(s1, AddKnown(key, pod, ""), []);
    Prepend(INITIAL, CreatePod(key, status), [AddKnown(key, pod, "")] + []);
    steps := [CreatePod(key, status)] + ([AddKnown(key, pod, "")] + []);
  }

  /**
   A stale read loses an update: for any two different statuses of a pod that does not end, the
   provider can go from the first to the second and back, the second handler can read the version
   before the first patch, and its patch is empty. Everything comes to rest and the API server
   still has the second status.
   */
  lemma StaleReadBreaksConvergence(key: Key, first: Status, second: Status) returns (steps: seq<Step>)
    requires first != second && !Terminal(first) && !Terminal(second)
    ensures Admissible(INITIAL, steps)
    ensures var s := Exec(INITIAL, steps);
      Resting(s) && Diverged(s, key) && s.known[key].last.status == first && s.api[key].status == second
  {
    hide Terminal, MergePatch;
    var pod := ApiPod(0, first);
    var a := Learned(key, first);
    var s1 := Exec(INITIAL, a);
    PatchReachesTarget(first, first, second);
    var b := Round(s1, key, ProviderPod(second, ""), pod);
    var s2 := Exec(s1, b);
    EmptyPatchLeaves(second, first);
    var c := Round(s2, key, ProviderPod(first, ""), pod);
    Joined(s1, b, c);
    Joined(INITIAL, a, b + c);
    steps := a + (b + c);
  }

  lemma EmptyPatchLeaves(current: Status, base: Status)
    ensures MergePatch(current, base, base) == current
  {
    hide MergePatch;
    PatchLeavesIff(current, base, base);
  }

  // ---------------------------------------------------------------- learning a pod under a patch

  /** A pod has been recreated and learned while a handler is patching its predecessor's status. */
  lemma LearnedUnderPatch(key: Key, base: Status, stored: Status, reborn: Status) returns (steps: seq<Step>)
    requires !Terminal(base) && base != stored
    ensures Admissible(INITIAL, steps)
    ensures var s, next := Exec(INITIAL, steps), ApiPod(1, reborn);
      && s.api == map[key := next] && s.known == map[key := KnownPod(1, ProviderPod(reborn, ""))]
      && s.announcing == multiset{} && s.queue == State([], map[key := ItemOf(key)]) && s.givenUp == {}
      && s.handlers == map[key := Patching(base, stored)]
  {
    hide Terminal;
    var a := Learned(key, base);
    var s1 := Exec(INITIAL, a);
    var b := ReadForPatch(s1, key, ProviderPod(stored, ""), ApiPod(0, base));
    var s2 := Exec(s1, b);
    var c := Replace(s2, key, reborn);
    Joined(s1, b, c);
    Joined(INITIAL, a, b + c);
    steps := a + (b + c);
  }

  /**
   Learning a recreated pod under a patch meant for its predecessor: whenever that patch changes
   the new pod's status, everything can come to rest with different statuses.
   */
  lemma LearningDuringPatchBreaksConvergence(key: Key, base: Status, stored: Status, reborn: Status)
    returns (steps: seq<Step>)
    requires !Terminal(base) && base != stored
    requires MergePatch(reborn, base, stored) != reborn && !Terminal(MergePatch(reborn, base, stored))
    ensures Admissible(INITIAL, steps)
    ensures var s := Exec(INITIAL, steps);
      Resting(s) && Diverged(s, key) && s.known[key].last.status == reborn && s.api[key].uid == 1
  {
    hide Terminal, MergePatch;
    var first := LearnedUnderPatch(key, base, stored, reborn);
    var second := PatchAndFinish(Exec(INITIAL, first), key);
    Joined(INITIAL, first, second);
    steps := first + second;
  }

  /** A pod is deleted, forgotten, created again under its name and learned. */
  lemma Replace(s: System, key: Key, reborn: Status) returns (steps: seq<Step>)
    requires key in s.api && key in s.known
    ensures Admissible(s, steps)
    ensures var pod := ApiPod(s.nextUid, reborn);
      Exec(s, steps) == SetPod(s, key, pod).(nextUid := s.nextUid + 1, givenUp := s.givenUp - {key},
                                             known := s.known[key := KnownPod(pod.uid, ProviderPod(reborn, ""))])
  {
    var pod := ApiPod(s.nextUid, reborn);
    var s1 := Next(s, DeletePod(key));
    var s2 := Next(s1, DeleteKnown(key));
    var s3 := Next(s2, CreatePod(key, reborn));
    var s4 := Next(s3, AddKnown(key, pod, ""));
    assert s4.api == s.api[key := pod] && s4.known == s.known[key := KnownPod(pod.uid, ProviderPod(reborn, ""))];
    Prepend(s3, AddKnown(key, pod, ""), []);
    Prepend(s2, CreatePod(key, reborn), [AddKnown(key, pod, "")] + []);
    Prepend(s1, DeleteKnown(key), [CreatePod(key, reborn)] + ([AddKnown(key, pod, "")] + []));
    Prepend(s, DeletePod(key), [DeleteKnown(key)] + ([CreatePod(key, reborn)] + ([AddKnown(key, pod, "")] + [])));
    steps := [DeletePod(key)] + ([DeleteKnown(key)] + ([CreatePod(key, reborn)] + ([AddKnown(key, pod, "")] + [])));
  }

  // ---------------------------------------------------------------- one handler pass

  /**
   One handler pass whose calls succeed, on a pod that is not terminal where it was read, leaves
   the pod settled exactly when every field in which the current and the stored status differ also
   differs between the version read and the stored one, or the patch ends the pod.
   */
  lemma HandlerPassConvergesIff(s: System, key: Key, base: ApiPod)
    requires Tracked(s, key) && PhaseOf(s, key) == Some(Started) && (key, base) in s.past && !Terminal(base.status)
    ensures var get, patch := Fetch(key, Seen(base)), Patch(key, Applied);
      var current, stored := s.api[key].status, s.known[key].last.status;
      && Enabled(s, get) && Enabled(Next(s, get), ReadStored(key))
      && Enabled(Next(Next(s, get), ReadStored(key)), patch)
      && var after := Next(Next(Next(s, get), ReadStored(key)), patch);
         && Tracked(after, key) && after.known == s.known
         && (Settled(after.api[key].status, stored) <==>
               || (forall f :: At(current, f) != At(stored, f) ==> At(base.status, f) != At(stored, f))
               || Terminal(MergePatch(current, base.status, stored)))
  {
    hide Terminal, MergePatch, At;
    PatchHitsIff(s.api[key].status, base.status, s.known[key].last.status);
  }
}
