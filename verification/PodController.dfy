/** The pod controller: the pods it knows, and the handler that brings the provider in line with them. */
module PodController {
  import opened Wrappers
  import opened Strings
  import opened Codecs
  import opened PodModel
  import opened ContainerDiff
  import opened VPodProvider
  import opened Reconcile
  import WorkQueue

  class KnownPod {
    var lastPodStatusReceivedFromProvider: Pod
    var lastPodUsed: Option<Pod>
    var lastPodStatusUpdateSkipped: bool

    constructor (pod: Pod)
      ensures lastPodStatusReceivedFromProvider == pod && lastPodUsed == None && !lastPodStatusUpdateSkipped
    {
      lastPodStatusReceivedFromProvider, lastPodUsed, lastPodStatusUpdateSkipped := pod, None, false;
    }
  }

  /** Whether any container is neither terminated nor waiting. */
  method AnyRunning(statuses: seq<ContainerStatus>) returns (r: bool)
    ensures r == IsRunning(statuses)
    ensures r <==> exists i :: 0 <= i < |statuses| && statuses[i].state.terminated.None?
                                && statuses[i].state.waiting.None?
  {
    for i := 0 to |statuses|
      invariant forall j :: 0 <= j < i ==> statuses[j].state.terminated.Some? || statuses[j].state.waiting.Some?
    {
      if statuses[i].state.terminated.None? && statuses[i].state.waiting.None? {
        return true;
      }
    }
    return false;
  }

  /**
   One round of waiting for a pod to become known: what the cache answers (nothing if it lacks the
   pod or fails), and the pod some event taught the controller before the next look, if any.
   */
  datatype Wait = Wait(cached: Option<Pod>, learned: Option<Pod>)

  /** The pod that is learned in the end, and the pod the notification carries by then. */
  function Awaiting(latest: Pod, waits: seq<Wait>): Option<(Pod, Pod)>
    decreases |waits|
  {
    if waits == [] || waits[0].cached.None? then None
    else if waits[0].learned.Some? then Some((waits[0].learned.value, waits[0].cached.value))
    else Awaiting(waits[0].cached.value, waits[1..])
  }

  /**
   The wait ends with the first round that teaches the pod, if the cache had it in every round until
   then; the notification carries the cached pod of that very round.
   */
  lemma {:induction false} AwaitingIff(latest: Pod, waits: seq<Wait>, learned: Pod, last: Pod)
    ensures Awaiting(latest, waits) == Some((learned, last)) <==>
      exists i :: 0 <= i < |waits| && waits[i] == Wait(Some(last), Some(learned))
        && forall j :: 0 <= j < i ==> waits[j].cached.Some? && waits[j].learned.None?
    decreases |waits|
  {
    if waits != [] && waits[0].cached.Some? && waits[0].learned.None? {
      AwaitingIff(waits[0].cached.value, waits[1..], learned, last);
      var rest := waits[1..];
      if i :| 0 <= i < |rest| && rest[i] == Wait(Some(last), Some(learned))
              && forall j :: 0 <= j < i ==> rest[j].cached.Some? && rest[j].learned.None? {
        assert waits[i + 1] == rest[i];
        assert forall j :: 1 <= j < i + 1 ==> waits[j] == rest[j - 1];
      }
      if i :| 0 <= i < |waits| && waits[i] == Wait(Some(last), Some(learned))
              && forall j :: 0 <= j < i ==> waits[j].cached.Some? && waits[j].learned.None? {
        assert rest[i - 1] == waits[i];
        assert forall j :: 0 <= j < i - 1 ==> rest[j] == waits[j + 1];
      }
    }
  }

  class PodController {
    var knownPods: map<string, KnownPod>
    const provider: VPodProvider
    var deletions: WorkQueue.State           // the queue of force deletions, by its specification
    var statusUpdates: WorkQueue.State       // the queue of status updates, by its specification
    var failures: seq<Pod>                   // pods whose provider failure was written to the API server

    constructor (provider: VPodProvider)
      requires provider.Valid()
      ensures Valid() && this.provider == provider && knownPods == map[]
      ensures deletions == WorkQueue.EMPTY && statusUpdates == WorkQueue.EMPTY && failures == []
    {
      this.knownPods, this.provider := map[], provider;
      this.deletions, this.statusUpdates, this.failures := WorkQueue.EMPTY, WorkQueue.EMPTY, [];
    }

    ghost function Known(): set<object>
      reads this
    {
      set key | key in knownPods :: knownPods[key]
    }

    ghost predicate Valid()
      reads this, Known(), provider, provider.store
    {
      && provider.Valid()
      && (forall a, b :: a in knownPods && b in knownPods && a != b ==> knownPods[a] != knownPods[b])
    }

    ghost function View(): World
      reads this, Known(), provider, provider.store
    {
      World(map key | key in knownPods :: knownPods[key].lastPodUsed, provider.Pods(), deletions)
    }

    /** Know a pod afresh: its status is taken as reported, and nothing was done with it yet. */
    method AddKnownPod(pod: Pod)
      requires Valid()
      modifies `knownPods
      ensures Valid() && KeyOf(pod) in knownPods && fresh(knownPods[KeyOf(pod)])
      ensures knownPods == old(knownPods)[KeyOf(pod) := knownPods[KeyOf(pod)]]
      ensures knownPods[KeyOf(pod)].lastPodStatusReceivedFromProvider == pod &&
          knownPods[KeyOf(pod)].lastPodUsed == None
      ensures View() == old(View()).(known := old(View()).known[KeyOf(pod) := None])
    {
      var known := new KnownPod(pod);
      knownPods := knownPods[KeyOf(pod) := known];
      assert View().known == old(View()).known[KeyOf(pod) := None];
    }

    method DeleteKnownPod(key: string)
      requires Valid()
      modifies `knownPods
      ensures Valid() && knownPods == old(knownPods) - {key}
      ensures View() == old(View()).(known := old(View()).known - {key})
    {
      knownPods := knownPods - {key};
      assert View().known == old(View()).known - {key};
    }

    /**
     Take a status from the provider for a known pod: an equal one is skipped, another one is
     stored and its key enqueued.
     */
    method StoreStatus(pod: Pod, now: WorkQueue.Time, limiter: WorkQueue.Duration)
      requires Valid() && KeyOf(pod) in knownPods
      modifies `statusUpdates, knownPods[KeyOf(pod)]
      ensures Valid() && View() == old(View())
      ensures var known := knownPods[KeyOf(pod)]; var same := old(known.lastPodStatusReceivedFromProvider) == pod;
        && known.lastPodStatusReceivedFromProvider == pod
        && known.lastPodStatusUpdateSkipped == same
        && statusUpdates == if same then old(statusUpdates)
             else WorkQueue.Insert(old(statusUpdates), KeyOf(pod), true, None, now, limiter)
    {
      var known := knownPods[KeyOf(pod)];
      if known.lastPodStatusReceivedFromProvider == pod {
        known.lastPodStatusUpdateSkipped := true;
      } else {
        known.lastPodStatusUpdateSkipped := false;
        known.lastPodStatusReceivedFromProvider := pod;
        statusUpdates := WorkQueue.Insert(statusUpdates, KeyOf(pod), true, None, now, limiter);
      }
      assert View().known == old(View()).known;
    }

    /** Wait until the pod is known: each round without it replaces the pod to store by the cached one. */
    method AwaitKnown(pod: Pod, waits: seq<Wait>) returns (latest: Option<Pod>)
      requires Valid()
      requires forall w :: w in waits ==>
        (w.cached.Some? ==> KeyOf(w.cached.value) == KeyOf(pod)) &&
            (w.learned.Some? ==> KeyOf(w.learned.value) == KeyOf(pod))
      modifies `knownPods
      ensures Valid()
      ensures KeyOf(pod) in old(knownPods) ==> latest == Some(pod) && knownPods == old(knownPods)
      ensures KeyOf(pod) !in old(knownPods) ==> match Awaiting(pod, waits)
        case None => latest == None && knownPods == old(knownPods)
        case Some((learned, last)) =>
          && latest == Some(last) && KeyOf(last) == KeyOf(pod)
          && KeyOf(pod) in knownPods && fresh(knownPods[KeyOf(pod)])
          && knownPods == old(knownPods)[KeyOf(pod) := knownPods[KeyOf(pod)]]
          && knownPods[KeyOf(pod)].lastPodStatusReceivedFromProvider == learned
          && knownPods[KeyOf(pod)].lastPodUsed == None
    {
      var carried := pod;
      for i := 0 to |waits|
        invariant Valid() && knownPods == old(knownPods) && KeyOf(carried) == KeyOf(pod)
        invariant KeyOf(pod) in knownPods ==> carried == pod
        invariant KeyOf(pod) !in knownPods ==> Awaiting(pod, waits) == Awaiting(carried, waits[i..])
      {
        if KeyOf(pod) in knownPods {
          return Some(pod);
        }
        if waits[i].cached.None? {
          return None;
        }
        carried := waits[i].cached.value;
        if waits[i].learned.Some? {
          AddKnownPod(waits[i].learned.value);
          return Some(carried);
        }
      }
      return if KeyOf(pod) in knownPods then Some(pod) else None;
    }

    /**
     A notification of the provider: for a known pod its status is stored and enqueued. For an
     unknown one the notification waits; what is stored in the end is the pod the cache had then,
     not the pod the provider reported, and if the cache has none nothing is stored.
     */
    method EnqueuePodStatusUpdate(pod: Pod, waits: seq<Wait>, now: WorkQueue.Time, limiter: WorkQueue.Duration)
      requires Valid()
      requires forall w :: w in waits ==>
        (w.cached.Some? ==> KeyOf(w.cached.value) == KeyOf(pod)) &&
            (w.learned.Some? ==> KeyOf(w.learned.value) == KeyOf(pod))
      modifies `knownPods, `statusUpdates, Known()
      ensures Valid()
      ensures KeyOf(pod) in old(knownPods) ==>
        && knownPods == old(knownPods) && View() == old(View())
        && var known := knownPods[KeyOf(pod)];
           var same := old(knownPods[KeyOf(pod)].lastPodStatusReceivedFromProvider) == pod;
           && known.lastPodStatusReceivedFromProvider == pod && known.lastPodStatusUpdateSkipped == same
           && statusUpdates == if same then old(statusUpdates)
                else WorkQueue.Insert(old(statusUpdates), KeyOf(pod), true, None, now, limiter)
      ensures KeyOf(pod) !in old(knownPods) ==> match Awaiting(pod, waits)
        case None => knownPods == old(knownPods) && View() == old(View()) && statusUpdates == old(statusUpdates)
        case Some((learned, last)) =>
          && KeyOf(pod) in knownPods && View() == old(View()).(known := old(View()).known[KeyOf(pod) := None])
          && knownPods[KeyOf(pod)].lastPodStatusReceivedFromProvider == last
          && knownPods[KeyOf(pod)].lastPodStatusUpdateSkipped == (learned == last)
          && statusUpdates == if learned == last then old(statusUpdates)
               else WorkQueue.Insert(old(statusUpdates), KeyOf(pod), true, None, now, limiter)
    {
      hide KeyOf, WorkQueue.Insert;
      ghost var before := View();
      var latest := AwaitKnown(pod, waits);
      if latest.None? {
        assert View() == before;
        return;
      }
      assert View().known == if KeyOf(pod) in old(knownPods) then before.known else before.known[KeyOf(pod) := None];
      StoreStatus(latest.value, now, limiter);
    }

    method EnqueueDeletion(key: string, pod: Pod, delay: Option<WorkQueue.Duration>,
                           now: WorkQueue.Time, limiter: WorkQueue.Duration)
      modifies `deletions
      ensures deletions == WorkQueue.Insert(old(deletions), DeletionKey(key, pod.uid), false, delay, now, limiter)
    {
      deletions := WorkQueue.Insert(deletions, DeletionKey(key, pod.uid), false, delay, now, limiter);
    }

    /**
     Write the failure to the API server: the pod without its resource version, Failed if its
     containers are never restarted and Pending otherwise, with reason and message, as it was in all
     other fields.
     */
    method HandleProviderError(pod: Pod, message: string)
      modifies `failures
      ensures failures == old(failures) + [FailedPod(pod, message)]
      ensures var written := failures[|old(failures)|];
        && written.resourceVersion == ""
        && (written.status.phase == Failed <==> pod.restartNever)
        && (written.status.phase == Pending <==> !pod.restartNever)
        && written.status.reason == "ProviderFailed" && written.status.message == message
        && written.(resourceVersion := pod.resourceVersion, status := pod.status) == pod
        && written.status.(phase := pod.status.phase, reason := pod.status.reason, message := pod.status.message)
             == pod.status
    {
      var phase := Pending;
      if pod.restartNever {
        phase := Failed;
      }
      var status := pod.status.(phase := phase, reason := "ProviderFailed", message := message);
      failures := failures + [pod.(resourceVersion := "", status := status)];
    }

    /**
     Make the provider's pod equal to this one; an equal stored pod means no call. If the provider
     stops having the pod before the update, the update fails and that is written to the API server.
     */
    method CreateOrUpdatePod(pod: Pod, polls: seq<Poll>, vanishes: bool) returns (ok: bool)
      requires provider.Valid() && pod.deletion.None?
      modifies `failures, provider, provider.store
      ensures provider.Valid()
      ensures !ok <==>
        && vanishes && KeyOf(pod) in old(provider.Pods())
        && var stored := old(provider.Pods())[KeyOf(pod)];
           stored.containers != pod.containers || stored.updatable != pod.updatable
      ensures ok == !UpdateFails(old(provider.Pods()), pod, vanishes)
      ensures ok ==> var store := provider.Pods();
        KeyOf(pod) in store && store[KeyOf(pod)].containers == pod.containers
        && store[KeyOf(pod)].updatable == pod.updatable
      ensures ok && KeyOf(pod) in old(provider.Pods()) ==>
        var stored := old(provider.Pods())[KeyOf(pod)];
        var equal := stored.containers == pod.containers && stored.updatable == pod.updatable;
        && (provider.notified == old(provider.notified) <==> equal)
        && (equal ==> provider.calls == old(provider.calls) && provider.Pods() == old(provider.Pods()))
      ensures !ok ==>
        && provider.Pods() == old(provider.Pods()) - {KeyOf(pod)}
        && provider.calls == old(provider.calls) && provider.notified == old(provider.notified)
        && failures == old(failures) + [FailedPod(pod, "pod " + KeyOf(pod) + " not found when updating")]
      ensures ok ==> failures == old(failures) && provider.Pods() == Stored(old(provider.Pods()), pod)
      ensures KeyOf(pod) !in old(provider.Pods()) ==>
        && provider.calls == old(provider.calls) + Starts(provider.nodeName, KeyOf(pod), pod.containers)
        && provider.notified == old(provider.notified) + [pod]
      ensures ok && KeyOf(pod) in old(provider.Pods()) && !PodsEqual(old(provider.Pods())[KeyOf(pod)], pod) ==>
        && provider.notified == old(provider.notified) + [pod]
        && exists stopped, started ::
             UpdateCalls(ByName(old(provider.Pods())[KeyOf(pod)].containers), ByName(pod.containers), stopped, started)
             && provider.calls == old(provider.calls) + Stops(provider.nodeName, StopKey(KeyOf(pod)), stopped)
                  + (if ConfirmedInTime(stopped, polls) then Starts(provider.nodeName, KeyOf(pod), started) else [])
    {
      var podFromProvider := provider.GetPod(KeyOf(pod));
      ok := true;
      if podFromProvider.Some? {
        if !PodsEqual(podFromProvider.value, pod) {
          if vanishes {
            // Another call of the provider comes in between.
            provider.store.DeletePod(KeyOf(pod));
          }
          var updated, stopped, started := provider.UpdatePod(pod, polls);
          if !updated {
            HandleProviderError(pod, "pod " + KeyOf(pod) + " not found when updating");
            return false;
          }
          assert UpdateCalls(ByName(podFromProvider.value.containers), ByName(pod.containers), stopped, started);
        }
      } else {
        provider.CreatePod(pod);
      }
    }

    /** Delete a pod marked for deletion, leave a terminal one, make the provider's equal to any other. */
    method ActOn(pod: Pod, key: string, polls: seq<Poll>, vanishes: bool, now: WorkQueue.Time,
        limiter: WorkQueue.Duration)
      returns (ok: bool)
      requires provider.Valid()
      modifies `deletions, `failures, provider, provider.store
      ensures provider.Valid()
      ensures ok == !(pod.deletion.None? && !IsTerminal(pod) && UpdateFails(old(provider.Pods()), pod, vanishes))
      ensures provider.Pods() == if pod.deletion.Some? || !ok then old(provider.Pods()) - {KeyOf(pod)}
        else if IsTerminal(pod) then old(provider.Pods()) else Stored(old(provider.Pods()), pod)
      ensures deletions == if pod.deletion.None? then old(deletions)
        else WorkQueue.Insert(old(deletions), DeletionKey(key, pod.uid), false, Some(SECOND * pod.deletion.value),
            now, limiter)
      ensures pod.deletion.None? && (IsTerminal(pod) ||
                (KeyOf(pod) in old(provider.Pods()) && PodsEqual(old(provider.Pods())[KeyOf(pod)], pod))) ==>
        provider.calls == old(provider.calls) && provider.notified == old(provider.notified)
      ensures failures == old(failures) +
        (if ok then [] else [FailedPod(pod, "pod " + KeyOf(pod) + " not found when updating")])
    {
      hide WorkQueue.Insert, DeletionKey;
      ok := true;
      if pod.deletion.Some? {
        provider.DeletePod(pod);
        EnqueueDeletion(key, pod, Some(SECOND * pod.deletion.value), now, limiter);
      } else if !IsTerminal(pod) {
        ok := CreateOrUpdatePod(pod, polls, vanishes);
      }
    }

    method MarkUsed(key: string, pod: Pod)
      requires Valid() && key in knownPods
      modifies knownPods[key]
      ensures Valid() && View() == old(View()).(known := old(View()).known[key := Some(pod)])
      ensures knownPods[key].lastPodStatusReceivedFromProvider == old(knownPods[key].lastPodStatusReceivedFromProvider)
    {
      knownPods[key].lastPodUsed := Some(pod);
      assert View().known == old(View()).known[key := Some(pod)];
    }

    /**
     Bring the provider in line with a cached pod, unless it was already acted on in this version.
     A failure leaves that version alone, so that the pass is made again.
     */
    method SyncPodInProvider(pod: Pod, key: string, polls: seq<Poll>, vanishes: bool,
                             now: WorkQueue.Time, limiter: WorkQueue.Duration) returns (ok: bool)
      requires Valid()
      modifies `deletions, `failures, Known(), provider, provider.store
      ensures Valid() && knownPods == old(knownPods) && ok == !old(SyncFails(View(), pod, key, vanishes))
      ensures ok ==> View() == old(SyncPod(View(), pod, key, now, limiter)) && failures == old(failures)
      ensures !ok ==>
        && View() == old(View()).(store := old(View()).store - {KeyOf(pod)})
        && failures == old(failures) + [FailedPod(pod, "pod " + KeyOf(pod) + " not found when updating")]
      ensures !old(SyncCallsProvider(View(), pod, key)) ==>
        provider.calls == old(provider.calls) && provider.notified == old(provider.notified)
    {
      hide WorkQueue.Insert, DeletionKey, PodsEqual, EffectivelyEqual, KeyOf, IsTerminal, IsRunning, Stored, FailedPod;
      var running := AnyRunning(pod.status.containers);
      if pod.deletion.Some? && !running {
        EnqueueDeletion(key, pod, None, now, limiter);
        return true;
      }
      if key !in knownPods {
        return true;
      }
      var lastPodUsed := knownPods[key].lastPodUsed;
      if lastPodUsed.Some? && EffectivelyEqual(lastPodUsed.value, pod) {
        return true;
      }
      ok := ActOn(pod, key, polls, vanishes, now, limiter);
      assert View().known == old(View()).known;
      if ok {
        MarkUsed(key, pod);
      }
    }

    /** Delete the provider's pod of a key the cache does not have, and no longer know it. */
    method DropPod(key: string, podKey: string)
      requires Valid()
      modifies `knownPods, provider, provider.store
      ensures Valid() && Known() <= old(Known())
      ensures View() == if podKey !in old(View()).store then old(View())
        else old(View()).(store := old(View()).store - {podKey}, known := old(View()).known - {key})
      ensures podKey !in old(View()).store ==>
        provider.calls == old(provider.calls) && provider.notified == old(provider.notified)
      ensures podKey in old(View()).store ==> var pod := old(View()).store[podKey];
        && provider.calls == old(provider.calls) + Stops(provider.nodeName, StopKey(podKey), pod.containers)
        && provider.notified == old(provider.notified) + [pod]
    {
      var pod := provider.GetPod(podKey);
      if pod.Some? {
        provider.DeletePod(pod.value);
        assert View().known == old(View()).known;
        DeleteKnownPod(key);
      }
    }

    /** One pass on a key: the cache decides whether the provider's pod is deleted or brought in line. */
    method SyncPodsFromKubernetesHandler(key: string, read: Read, polls: seq<Poll>, vanishes: bool,
                                         now: WorkQueue.Time, limiter: WorkQueue.Duration) returns (ok: bool)
      requires Valid() && ReadsKey(key, read)
      modifies `knownPods, `deletions, `failures, Known(), provider, provider.store
      ensures Valid() && Known() <= old(Known())
      ensures SplitMetaNamespaceKey(key).None? ==> ok
      ensures SplitMetaNamespaceKey(key).Some? ==>
        ok == (!read.CacheFailed? && !(read.Cached? && old(SyncFails(View(), read.pod, key, vanishes))))
      ensures ok ==> View() == old(Pass(View(), key, read, now, limiter)) && failures == old(failures)
      ensures !ok && read.CacheFailed? ==> View() == old(View()) && failures == old(failures)
      ensures !ok && read.Cached? ==>
        && View() == old(View()).(store := old(View()).store - {KeyOf(read.pod)})
        && failures == old(failures) +
             [FailedPod(read.pod, "pod " + KeyOf(read.pod) + " not found when updating")]
      ensures !old(CallsProvider(View(), key, read)) ==>
        provider.calls == old(provider.calls) && provider.notified == old(provider.notified)
    {
      hide Split, WorkQueue.Insert, PodKey, SyncPod, SyncCallsProvider, SplitMetaNamespaceKey, SyncFails;
      var parts := SplitMetaNamespaceKey(key);
      if parts.None? {
        return true;
      }
      var (namespace, name) := parts.value;
      match read {
        case CacheFailed => return false;
        case NotCached =>
          DropPod(key, PodKey(namespace, name));
          return true;
        case Cached(pod) =>
          ok := SyncPodInProvider(pod, key, polls, vanishes, now, limiter);
      }
    }
  }

  /** What an update stops and starts. */
  ghost predicate UpdateCalls(before: Containers, wanted: Containers, stopped: seq<Container>,
      started: seq<Container>) {
    Lists(stopped, ToStop(before, wanted)) && Lists(started, ToStart(before, wanted))
  }
}
