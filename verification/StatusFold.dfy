/** What a stored pod's container statuses are after any sequence of reports. */
module StatusFold {
  import opened Wrappers
  import opened PodModel
  import opened ContainerStatuses

  /** A stored pod after reports, oldest first. */
  ghost function AfterReports(localIP: string, pod: Pod, reports: seq<BizStatus>): Pod {
    if reports == [] then pod
    else
      var n := |reports| - 1;
      var before := AfterReports(localIP, pod, reports[..n]);
      before.(status := PodStatusAfter(localIP, before, reports[n]))
  }

  /** The last report about a container. */
  function LastNaming(reports: seq<BizStatus>, name: string): (r: Option<BizStatus>)
    ensures r.Some? ==> r.value in reports && r.value.name == name
  {
    if reports == [] then None
    else
      var n := |reports| - 1;
      if reports[n].name == name then Some(reports[n]) else LastNaming(reports[..n], name)
  }

  /** By the last report about it, else as it was before any report, else not started. */
  function Expected(c: Container, before: seq<ContainerStatus>, reports: seq<BizStatus>): ContainerStatus {
    match LastNaming(reports, c.name)
    case Some(report) => Reported(c, report)
    case None => StatusNamed(before, c.name).GetOr(NotStarted(c))
  }

  ghost predicate FoldsTo(localIP: string, pod: Pod, reports: seq<BizStatus>) {
    var jars, after := Jars(pod.containers), AfterReports(localIP, pod, reports);
    && after == pod.(status := after.status)
    && |after.status.containers| == |jars|
    && forall i :: 0 <= i < |jars| ==> after.status.containers[i] == Expected(jars[i], pod.status.containers, reports)
  }

  /** Business containers of one name have one image. */
  predicate NamesFixImages(jars: seq<Container>) {
    forall i, j :: 0 <= i < |jars| && 0 <= j < |jars| && jars[i].name == jars[j].name ==> jars[i].image == jars[j].image
  }

  lemma {:induction false} LastNamed(statuses: seq<ContainerStatus>, i: nat) returns (k: nat)
    requires i < |statuses|
    ensures i <= k < |statuses| && statuses[k].name == statuses[i].name
    ensures StatusNamed(statuses, statuses[i].name) == Some(statuses[k])
  {
    var n := |statuses| - 1;
    if statuses[n].name == statuses[i].name {
      k := n;
    } else {
      k := LastNamed(statuses[..n], i);
    }
  }

  /** A container's status is found again under its name. */
  lemma StatusIsFound(jars: seq<Container>, before: seq<ContainerStatus>, data: BizStatus, i: nat)
    requires NamesFixImages(jars) && i < |jars|
    ensures StatusNamed(StatusesAfter(jars, before, data), jars[i].name) == Some(StatusesAfter(jars, before, data)[i])
  {
    var k := LastNamed(StatusesAfter(jars, before, data), i);
  }

  lemma AnotherReportKeeps(c: Container, before: seq<ContainerStatus>, reports: seq<BizStatus>, n: nat)
    requires n + 1 == |reports|
    ensures Expected(c, before, reports) ==
      if reports[n].name == c.name then Reported(c, reports[n]) else Expected(c, before, reports[..n])
  {
  }

  /**
   Status fold: after any reports, each business container, in order, has the status of the last
   report about it, else the one it had, else the empty one; nothing else of the pod changes.
   */
  lemma {:induction false} ReportsFold(localIP: string, pod: Pod, reports: seq<BizStatus>)
    requires NamesFixImages(Jars(pod.containers)) && reports != []
    ensures FoldsTo(localIP, pod, reports)
  {
    hide Jars, Reported, NotStarted, NamesFixImages, StatusNamed, PhaseFor, ReadyFor, LastNaming;
    var n := |reports| - 1;
    var jars, original := Jars(pod.containers), pod.status.containers;
    var before := AfterReports(localIP, pod, reports[..n]);
    if n > 0 {
      ReportsFold(localIP, pod, reports[..n]);
    }
    forall i | 0 <= i < |jars|
      ensures StatusAfter(jars[i], before.status.containers, reports[n]) == Expected(jars[i], original, reports) {
      AnotherReportKeeps(jars[i], original, reports, n);
      if n > 0 {
        BeforeIsFound(localIP, pod, reports[..n], i);
      } else {
        assert LastNaming(reports[..n], jars[i].name).None?;
      }
    }
  }

  lemma BeforeIsFound(localIP: string, pod: Pod, reports: seq<BizStatus>, i: nat)
    requires NamesFixImages(Jars(pod.containers)) && reports != [] && i < |Jars(pod.containers)|
    requires FoldsTo(localIP, pod, reports)
    ensures var jars := Jars(pod.containers);
      StatusNamed(AfterReports(localIP, pod, reports).status.containers, jars[i].name)
        == Some(Expected(jars[i], pod.status.containers, reports))
  {
    hide Jars, Reported, NotStarted, NamesFixImages, StatusNamed, PhaseFor, ReadyFor, LastNaming;
    var n := |reports| - 1;
    var before := AfterReports(localIP, pod, reports[..n]);
    assert AfterReports(localIP, pod, reports).containers == pod.containers;
    StatusIsFound(Jars(pod.containers), before.status.containers, reports[n], i);
  }

  /** With the distinct container names Kubernetes requires, the fold always holds. */
  lemma DistinctNamesFold(localIP: string, pod: Pod, reports: seq<BizStatus>)
    requires DistinctNames(pod.containers) && reports != []
    ensures FoldsTo(localIP, pod, reports)
  {
    JarsKeepNamesDistinct(pod.containers);
    ReportsFold(localIP, pod, reports);
  }

  /**
   A container that had no status and that no report is about has not started: it is not ready, in
   no state, and named after itself.
   */
  lemma UnreportedIsNotStarted(localIP: string, pod: Pod, reports: seq<BizStatus>, i: nat)
    requires DistinctNames(pod.containers) && reports != [] && i < |Jars(pod.containers)|
    requires var name := Jars(pod.containers)[i].name;
      && (forall s :: s in pod.status.containers ==> s.name != name)
      && (forall r :: r in reports ==> r.name != name)
    ensures var c, after := Jars(pod.containers)[i], AfterReports(localIP, pod, reports).status.containers;
      && i < |after|
      && var s := after[i];
         && s.name == s.containerId == c.name && s.image == s.imageId == c.image
         && !s.ready && s.started == Some(false)
         && s.state.waiting.None? && s.state.running.None? && s.state.terminated.None?
  {
    hide Jars, AfterReports, StatusNamed, LastNaming;
    DistinctNamesFold(localIP, pod, reports);
    NamedIsLast(pod.status.containers, Jars(pod.containers)[i].name);
  }

  function ReportOn(name: string): BizStatus {
    BizStatus(name, name, "", ACTIVATED, "", "", 0)
  }

  /** A report about one name and then one about another leave every container of the first name with one image. */
  lemma TwoReportsShareImage(localIP: string, pod: Pod, name: string) returns (image: string)
    requires exists c :: c in Jars(pod.containers) && c.name == name
    ensures var reports := [ReportOn(name), ReportOn(name + "'")];
      var jars, after := Jars(pod.containers), AfterReports(localIP, pod, reports).status.containers;
      && |after| == |jars|
      && (forall i :: 0 <= i < |jars| && jars[i].name == name ==> after[i].image == image)
      && LastNaming(reports, name) == Some(ReportOn(name))
  {
    hide Jars, PhaseFor, ReadyFor;
    var reports := [ReportOn(name), ReportOn(name + "'")];
    var jars := Jars(pod.containers);
    var first := AfterReports(localIP, pod, reports[..1]);
    assert reports[..1][0] == ReportOn(name) && reports[..1][..0] == [];
    assert AfterReports(localIP, pod, reports[..1][..0]) == pod;
    assert first == pod.(status := PodStatusAfter(localIP, pod, ReportOn(name)));
    assert AfterReports(localIP, pod, reports) == first.(status :=
        PodStatusAfter(localIP, first, ReportOn(name + "'")));
    assert |name + "'"| != |name|;
    var i :| 0 <= i < |jars| && jars[i].name == name;
    var k := LastNamed(first.status.containers, i);
    image := first.status.containers[k].image;
    assert LastNaming(reports[..1], name) == Some(ReportOn(name));
  }

  /**
   The fold holds for every sequence of reports exactly when business containers of one name have
   one image; otherwise a later report about another container moves an image between them.
   */
  lemma FoldAlwaysHoldsIff(localIP: string, pod: Pod)
    ensures (forall reports :: reports != [] ==> FoldsTo(localIP, pod, reports)) <==>
        NamesFixImages(Jars(pod.containers))
  {
    hide Jars;
    if NamesFixImages(Jars(pod.containers)) {
      forall reports | reports != [] ensures FoldsTo(localIP, pod, reports) {
        ReportsFold(localIP, pod, reports);
      }
    } else {
      var jars := Jars(pod.containers);
      var i, j :| 0 <= i < |jars| && 0 <= j < |jars| && jars[i].name == jars[j].name && jars[i].image != jars[j].image;
      assert jars[i] in jars;
      var reports := [ReportOn(jars[i].name), ReportOn(jars[i].name + "'")];
      var image := TwoReportsShareImage(localIP, pod, jars[i].name);
      assert Expected(jars[i], pod.status.containers, reports).image != Expected(jars[j], pod.status.containers,
          reports).image;
      assert !FoldsTo(localIP, pod, reports);
    }
  }

  // ---------------------------------------------------------------- the whole store

  type Pods = map<string, Pod>

  /** One report's effect on the stored pods. */
  ghost function SyncOne(localIP: string, pods: Pods, report: BizStatus): Pods {
    if report.podKey in pods then
      var pod := pods[report.podKey];
      pods[report.podKey := pod.(status := PodStatusAfter(localIP, pod, report))]
    else pods
  }

  ghost function SyncAll(localIP: string, pods: Pods, reports: seq<BizStatus>): Pods {
    if reports == [] then pods
    else
      var n := |reports| - 1;
      SyncOne(localIP, SyncAll(localIP, pods, reports[..n]), reports[n])
  }

  function ReportsOf(reports: seq<BizStatus>, podKey: string): seq<BizStatus> {
    if reports == [] then []
    else
      var n := |reports| - 1;
      ReportsOf(reports[..n], podKey) + (if reports[n].podKey == podKey then [reports[n]] else [])
  }

  /** Reports change each stored pod by those that name it, whatever is reported about the others. */
  lemma {:induction false} StoreFollowsEachPod(localIP: string, pods: Pods, reports: seq<BizStatus>, podKey: string)
    requires podKey in pods
    ensures SyncAll(localIP, pods, reports).Keys == pods.Keys
    ensures SyncAll(localIP, pods, reports)[podKey] == AfterReports(localIP, pods[podKey], ReportsOf(reports, podKey))
  {
    hide PodStatusAfter;
    if reports != [] {
      var n := |reports| - 1;
      StoreFollowsEachPod(localIP, pods, reports[..n], podKey);
      var some := ReportsOf(reports[..n], podKey);
      var more := some + [reports[n]];
      assert more[..|more| - 1] == some && more[|more| - 1] == reports[n];
      assert some + [] == some;
    }
  }

  /**
   After any reports to the store, a pod with distinct container names has for each business
   container the status of the last report about it under this pod key, else the one it had, else
   the empty one; its containers and all other fields are as they were.
   */
  lemma StoredStatusesFold(localIP: string, pods: Pods, reports: seq<BizStatus>, podKey: string)
    requires podKey in pods && DistinctNames(pods[podKey].containers)
    requires exists r :: r in reports && r.podKey == podKey
    ensures podKey in SyncAll(localIP, pods, reports)
    ensures var was, now := pods[podKey], SyncAll(localIP, pods, reports)[podKey]; var jars := Jars(was.containers);
      && now == was.(status := now.status)
      && |now.status.containers| == |jars|
      && forall i :: 0 <= i < |jars| ==>
           now.status.containers[i] == Expected(jars[i], was.status.containers, ReportsOf(reports, podKey))
  {
    hide Jars, Expected, PodStatusAfter;
    StoreFollowsEachPod(localIP, pods, reports, podKey);
    SomeReportOf(reports, podKey);
    DistinctNamesFold(localIP, pods[podKey], ReportsOf(reports, podKey));
  }

  lemma {:induction false} SomeReportOf(reports: seq<BizStatus>, podKey: string)
    requires exists r :: r in reports && r.podKey == podKey
    ensures ReportsOf(reports, podKey) != []
  {
    var n := |reports| - 1;
    if reports[n].podKey != podKey {
      assert reports == reports[..n] + [reports[n]];
      SomeReportOf(reports[..n], podKey);
    }
  }
}
