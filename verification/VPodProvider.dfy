/** The provider's pod store and what its operations do to it, to the base and to its listener. */
module VPodProvider {
  import opened Wrappers
  import opened PodModel
  import opened ContainerStatuses
  import opened ContainerDiff
  import opened StatusFold

  const NOT_EXIST_POD := "not-exist-pod"

  predicate HasSuffix(s: string, suffix: string) {
    |s| >= |suffix| && s[|s| - |suffix|..] == suffix
  }

  /** The pod key a stop is sent under: none for the stand-in of a pod Kubernetes does not have. */
  function StopKey(podKey: string): string {
    if HasSuffix(podKey, NOT_EXIST_POD) then "" else podKey
  }

  /** Exactly the keys that end in the stand-in's name are sent as none. */
  lemma StopKeyIff(podKey: string)
    ensures (exists prefix :: podKey == prefix + "not-exist-pod") ==> StopKey(podKey) == ""
    ensures (forall prefix :: podKey != prefix + "not-exist-pod") ==> StopKey(podKey) == podKey
  {
    var n := |podKey| - |NOT_EXIST_POD|;
    if HasSuffix(podKey, NOT_EXIST_POD) {
      assert podKey == podKey[..n] + "not-exist-pod";
    }
    forall prefix: string | podKey == prefix + "not-exist-pod" ensures HasSuffix(podKey, NOT_EXIST_POD) {
      assert podKey[n..] == "not-exist-pod";
    }
  }

  class VPodStore {
    var podKeyToPod: map<string, Pod>

    constructor ()
      ensures podKeyToPod == map[]
    {
      podKeyToPod := map[];
    }

    ghost predicate Valid()
      reads this
    {
      forall key :: key in podKeyToPod ==> KeyOf(podKeyToPod[key]) == key
    }

    method PutPod(pod: Pod)
      requires Valid()
      modifies this
      ensures Valid() && podKeyToPod == old(podKeyToPod)[KeyOf(pod) := pod]
    {
      podKeyToPod := podKeyToPod[KeyOf(pod) := pod];
    }

    method DeletePod(podKey: string)
      requires Valid()
      modifies this
      ensures Valid() && podKeyToPod == old(podKeyToPod) - {podKey}
    {
      podKeyToPod := podKeyToPod - {podKey};
    }

    method GetPodByKey(podKey: string) returns (r: Option<Pod>)
      ensures r == if podKey in podKeyToPod then Some(podKeyToPod[podKey]) else None
    {
      r := if podKey in podKeyToPod then Some(podKeyToPod[podKey]) else None;
    }

    /** Every stored pod once, in some order. */
    method GetPods() returns (r: seq<Pod>)
      requires Valid()
      ensures |r| == |podKeyToPod|
      ensures forall pod :: pod in r <==> KeyOf(pod) in podKeyToPod && podKeyToPod[KeyOf(pod)] == pod
    {
      r := [];
      var keys := podKeyToPod.Keys;
      while keys != {}
        invariant keys <= podKeyToPod.Keys
        invariant |r| + |keys| == |podKeyToPod|
        invariant forall pod :: pod in r <==>
          KeyOf(pod) in podKeyToPod && KeyOf(pod) !in keys && podKeyToPod[KeyOf(pod)] == pod
        decreases |keys|
      {
        var key :| key in keys;
        keys := keys - {key};
        r := r + [podKeyToPod[key]];
      }
    }
  }

  class VPodProvider {
    const nodeName: string
    const localIP: string
    const store: VPodStore
    var calls: seq<Call>           // what was sent to the base
    var notified: seq<Pod>         // what was told to the listener

    constructor (nodeName: string, localIP: string)
      ensures Valid() && this.nodeName == nodeName && this.localIP == localIP && fresh(store)
      ensures Pods() == map[] && calls == [] && notified == []
    {
      this.nodeName, this.localIP, this.calls, this.notified := nodeName, localIP, [], [];
      this.store := new VPodStore();
    }

    ghost predicate Valid()
      reads this, store
    {
      store.Valid()
    }

    ghost function Pods(): map<string, Pod>
      reads this, store
    {
      store.podKeyToPod
    }

    method HandleBizBatchStart(pod: Pod, containers: seq<Container>)
      modifies this`calls
      ensures calls == old(calls) + Starts(nodeName, KeyOf(pod), containers)
      ensures |calls| == |old(calls)| + |containers| && calls[..|old(calls)|] == old(calls)
      ensures forall i :: |old(calls)| <= i < |calls| ==>
        calls[i] == StartBiz(nodeName, pod.namespace + "/" + pod.name, containers[i - |old(calls)|])
    {
      for i := 0 to |containers|
        invariant calls == old(calls) + Starts(nodeName, KeyOf(pod), containers[..i])
      {
        calls := calls + [StartBiz(nodeName, KeyOf(pod), containers[i])];
      }
      assert containers[..|containers|] == containers;
    }

    method HandleBizBatchStop(pod: Pod, containers: seq<Container>)
      modifies this`calls
      ensures calls == old(calls) + Stops(nodeName, StopKey(KeyOf(pod)), containers)
      ensures |calls| == |old(calls)| + |containers| && calls[..|old(calls)|] == old(calls)
      ensures forall i :: |old(calls)| <= i < |calls| ==>
        calls[i] == StopBiz(nodeName, StopKey(pod.namespace + "/" + pod.name), containers[i - |old(calls)|])
    {
      for i := 0 to |containers|
        invariant calls == old(calls) + Stops(nodeName, StopKey(KeyOf(pod)), containers[..i])
      {
        calls := calls + [StopBiz(nodeName, StopKey(KeyOf(pod)), containers[i])];
      }
      assert containers[..|containers|] == containers;
    }

    method CreatePod(pod: Pod)
      requires Valid()
      modifies this, store
      ensures Valid() && Pods() == old(Pods())[KeyOf(pod) := pod]
      ensures calls == old(calls) + Starts(nodeName, KeyOf(pod), pod.containers) && notified == old(notified) + [pod]
    {
      store.PutPod(pod);
      HandleBizBatchStart(pod, pod.containers);
      notified := notified + [pod];
    }

    /**
     Update a stored pod: stop what changed, and once that is confirmed start what changed or is
     new. A pod that is being deleted is skipped, and a pod that is not stored is an error.
     */
    method UpdatePod(pod: Pod, polls: seq<Poll>)
      returns (ok: bool, ghost stopped: seq<Container>, ghost started: seq<Container>)
      requires Valid()
      modifies this, store
      ensures Valid() && (ok <==> pod.deletion.Some? || KeyOf(pod) in old(Pods()))
      ensures pod.deletion.Some? || !ok ==> Pods() == old(Pods()) && calls == old(calls) && notified == old(notified)
      ensures pod.deletion.None? && ok ==>
        && Pods() == old(Pods())[KeyOf(pod) := pod] && notified == old(notified) + [pod]
        && var before, wanted := ByName(old(Pods()[KeyOf(pod)]).containers), ByName(pod.containers);
           && Lists(stopped, ToStop(before, wanted)) && Lists(started, ToStart(before, wanted))
           && DistinctNames(stopped) && DistinctNames(started)
           && (forall c :: c in stopped <==>
                 c.name in before && c == before[c.name] && c.name in wanted && wanted[c.name] != c)
           && (forall c :: c in started <==>
                 c.name in wanted && c == wanted[c.name] && (c.name in before ==> before[c.name] != c))
           && calls == old(calls) + Stops(nodeName, StopKey(KeyOf(pod)), stopped)
                + (if ConfirmedInTime(stopped, polls) then Starts(nodeName, KeyOf(pod), started) else [])
    {
      hide Lists, ToStop, ToStart, ByName, ConfirmedInTime, Starts, Stops, DistinctNames, KeyOf, StopKey, HasSuffix;
      stopped, started := [], [];
      if pod.deletion.Some? {
        return true, [], [];
      }
      var found := store.GetPodByKey(KeyOf(pod));
      if found.None? {
        return false, [], [];
      }
      var oldPod := found.value;
      var newContainers := IndexContainers(pod.containers);
      var oldContainers := IndexContainers(oldPod.containers);
      var shouldStop, shouldStart := CollectChanged(oldContainers, newContainers);
      shouldStart := CollectNew(oldContainers, newContainers, shouldStart);
      stopped, started := shouldStop, shouldStart;
      DiffByContainer(oldContainers, newContainers, stopped, started);
      if |shouldStop| > 0 {
        HandleBizBatchStop(oldPod, shouldStop);
      }
      store.PutPod(pod);
      if |shouldStart| > 0 {
        var confirmed := WaitStopped(shouldStop, polls);
        if confirmed {
          HandleBizBatchStart(pod, shouldStart);
        }
      }
      notified := notified + [pod];
      ok := true;
    }

    /** Delete a pod: forget it, stop its containers and tell the listener, stored or not. */
    method DeletePod(pod: Pod)
      requires Valid()
      modifies this, store
      ensures Valid() && Pods() == old(Pods()) - {KeyOf(pod)}
      ensures calls == old(calls) + Stops(nodeName, StopKey(KeyOf(pod)), pod.containers) &&
          notified == old(notified) + [pod]
    {
      store.DeletePod(KeyOf(pod));
      HandleBizBatchStop(pod, pod.containers);
      notified := notified + [pod];
    }

    method GetPod(podKey: string) returns (r: Option<Pod>)
      ensures r == if podKey in Pods() then Some(Pods()[podKey]) else None
    {
      r := store.GetPodByKey(podKey);
    }

    /** A report about a stored pod becomes its new status, which the listener is told. */
    method SyncBizStatusToKube(data: BizStatus)
      requires Valid()
      modifies this, store
      ensures Valid() && calls == old(calls)
      ensures Pods() == SyncOne(localIP, old(Pods()), data)
      ensures notified == old(notified) + (if data.podKey in old(Pods()) then [Pods()[data.podKey]] else [])
    {
      var found := store.GetPodByKey(data.podKey);
      if found.None? {
        return;
      }
      var status := GetPodStatus(localIP, found.value, data);
      var pod := found.value.(status := status);
      store.PutPod(pod);
      notified := notified + [pod];
    }

    /** The last part of a batch report: each status in turn. */
    method SyncEachBizStatusToKube(reports: seq<BizStatus>)
      requires Valid()
      modifies this, store
      ensures Valid() && calls == old(calls)
      ensures Pods() == SyncAll(localIP, old(Pods()), reports)
    {
      for i := 0 to |reports|
        invariant Valid() && calls == old(calls)
        invariant Pods() == SyncAll(localIP, old(Pods()), reports[..i])
      {
        SyncBizStatusToKube(reports[i]);
        assert reports[..i + 1][..i] == reports[..i];
      }
      assert reports[..|reports|] == reports;
    }
  }
}
