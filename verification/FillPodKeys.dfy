/** Finding the pods that reported containers belong to, and the reports that belong to none. */
module FillPodKeys {
  import opened Wrappers
  import opened Strings
  import opened PodModel

  /** Whether one of the containers is a business container of this key. */
  predicate AnyBiz(containers: seq<Container>, bizKey: string): (r: bool)
    ensures r <==> exists c :: c in containers && IsJar(c) && BizKeyOf(c) == bizKey
  {
    if containers == [] then false
    else
      var n := |containers| - 1;
      assert containers == containers[..n] + [containers[n]];
      (IsJar(containers[n]) && BizKeyOf(containers[n]) == bizKey) || AnyBiz(containers[..n], bizKey)
  }

  predicate HasBiz(pod: Pod, bizKey: string) {
    AnyBiz(pod.containers, bizKey)
  }

  /** The last pod, in the order given, with a business container of this key. */
  function Owner(pods: seq<Pod>, bizKey: string): (r: Option<Pod>)
    ensures r.Some? ==> r.value in pods && HasBiz(r.value, bizKey)
    ensures r.None? <==> forall pod :: pod in pods ==> !HasBiz(pod, bizKey)
  {
    if pods == [] then None
    else
      var n := |pods| - 1;
      assert pods == pods[..n] + [pods[n]];
      if HasBiz(pods[n], bizKey) then Some(pods[n]) else Owner(pods[..n], bizKey)
  }

  /** No later pod has a business container of this key. */
  lemma {:induction false} OwnerIsLast(pods: seq<Pod>, bizKey: string, i: nat)
    requires i < |pods| && HasBiz(pods[i], bizKey)
    requires forall j :: i < j < |pods| ==> !HasBiz(pods[j], bizKey)
    ensures Owner(pods, bizKey) == Some(pods[i])
  {
    var n := |pods| - 1;
    if i < n {
      assert !HasBiz(pods[n], bizKey);
      OwnerIsLast(pods[..n], bizKey, i);
    }
  }

  /** A report with the key of its owner, unless it has a key already or there is no owner. */
  function Filled(pods: seq<Pod>, report: BizStatus): BizStatus {
    if report.podKey == "" && Owner(pods, report.key).Some?
    then report.(podKey := KeyOf(Owner(pods, report.key).value))
    else report
  }

  /** A sequence made of two others by merging them without reordering either. */
  ghost predicate Merges(a: seq<BizStatus>, b: seq<BizStatus>, whole: seq<BizStatus>) {
    if whole == [] then a == [] && b == []
    else
      var n := |whole| - 1;
      || (a != [] && a[|a| - 1] == whole[n] && Merges(a[..|a| - 1], b, whole[..n]))
      || (b != [] && b[|b| - 1] == whole[n] && Merges(a, b[..|b| - 1], whole[..n]))
  }

  /** No element of a merge is lost or made up. */
  lemma {:induction false} MergesKeepElements(a: seq<BizStatus>, b: seq<BizStatus>, whole: seq<BizStatus>)
    requires Merges(a, b, whole)
    ensures multiset(a) + multiset(b) == multiset(whole)
  {
    if whole != [] {
      var n := |whole| - 1;
      assert whole == whole[..n] + [whole[n]];
      if a != [] && a[|a| - 1] == whole[n] && Merges(a[..|a| - 1], b, whole[..n]) {
        assert a == a[..|a| - 1] + [a[|a| - 1]];
        MergesKeepElements(a[..|a| - 1], b, whole[..n]);
      } else {
        assert b == b[..|b| - 1] + [b[|b| - 1]];
        MergesKeepElements(a, b[..|b| - 1], whole[..n]);
      }
    }
  }

  /** A filled report names a pod that has its container; only reports without an owner stay without a key. */
  lemma FilledMeans(pods: seq<Pod>, report: BizStatus)
    ensures var r := Filled(pods, report);
      && r == report.(podKey := r.podKey)
      && (report.podKey != "" ==> r == report)
      && (r.podKey == "" <==> report.podKey == "" && forall pod :: pod in pods ==> !HasBiz(pod, report.key))
      && (r.podKey != report.podKey ==> exists pod :: pod in pods && HasBiz(pod, report.key) && r.podKey == KeyOf(pod))
  {
    if report.podKey == "" && Owner(pods, report.key).Some? {
      var pod := Owner(pods, report.key).value;
      assert KeyOf(pod)[|pod.namespace|] == '/';
    }
  }

  /** A container whose image has ".jar" in its name and that is reported under this key. */
  predicate ReportedAs(c: Container, key: string) {
    && (exists i | 0 <= i < |c.image| :: JarAt(c.image, i))
    && (exists n | 0 <= n < |key| ::
          key[..n] == c.name && key[n] == ':' && Versioned(c.env, key[n + 1..]))
  }

  predicate JarAt(image: string, i: nat) {
    i + 4 <= |image| && image[i] == '.' && image[i + 1] == 'j' && image[i + 2] == 'a' && image[i + 3] == 'r'
  }

  lemma JarInImage(c: Container)
    ensures IsJar(c) <==> exists i | 0 <= i < |c.image| :: JarAt(c.image, i)
  {
    forall i: nat ensures OccursAt(c.image, ".jar", i) <==> JarAt(c.image, i) {
      if i + 4 <= |c.image| {
        assert c.image[i..i + 4] == [c.image[i], c.image[i + 1], c.image[i + 2], c.image[i + 3]];
      }
    }
  }

  lemma ReportedIsBiz(c: Container, key: string)
    ensures ReportedAs(c, key) <==> IsJar(c) && BizKeyOf(c) == key
  {
    JarInImage(c);
    hide IsJar, Versioned, BizVersion;
    var version := BizVersion(c.env);
    VersionIsFirst(c.env, version);
    if BizKeyOf(c) == key {
      assert key[..|c.name|] == c.name && key[|c.name|] == ':' && key[|c.name| + 1..] == version;
    }
    if n :| 0 <= n < |key| && key[..n] == c.name && key[n] == ':' && Versioned(c.env, key[n + 1..]) {
      VersionIsFirst(c.env, key[n + 1..]);
      assert key == key[..n] + ":" + key[n + 1..];
    }
  }

  /**
   A report without a pod key finds a pod exactly if one has a container that is reported under its
   key, name and version with a colon between them; and it gets the key of such a pod.
   */
  lemma ReportFindsPod(pods: seq<Pod>, report: BizStatus)
    requires report.podKey == ""
    ensures Filled(pods, report).podKey != "" <==>
      exists pod :: pod in pods && exists c :: c in pod.containers && ReportedAs(c, report.key)
    ensures Filled(pods, report).podKey != "" ==>
      exists pod :: pod in pods && Filled(pods, report).podKey == pod.namespace + "/" + pod.name
        && exists c :: c in pod.containers && ReportedAs(c, report.key)
  {
    hide IsJar, BizKeyOf, Filled, ReportedAs, AnyBiz;
    FilledMeans(pods, report);
    forall pod: Pod
      ensures HasBiz(pod, report.key) <==> exists c :: c in pod.containers && ReportedAs(c, report.key) {
      forall c: Container ensures ReportedAs(c, report.key) <==> IsJar(c) && BizKeyOf(c) == report.key {
        ReportedIsBiz(c, report.key);
      }
      var r := AnyBiz(pod.containers, report.key);
    }
  }

  /** The owners' keys by business key, as the program collects them. */
  ghost predicate Collects(m: map<string, string>, pods: seq<Pod>) {
    forall bizKey :: if bizKey in m then Owner(pods, bizKey).Some? && m[bizKey] == KeyOf(Owner(pods, bizKey).value)
                     else Owner(pods, bizKey).None?
  }

  method CollectOne(before: map<string, string>, ghost seen: seq<Pod>, pod: Pod) returns (m: map<string, string>)
    requires Collects(before, seen)
    ensures Collects(m, seen + [pod])
  {
    hide IsJar, BizKeyOf, Owner, KeyOf;
    m := before;
    for i := 0 to |pod.containers|
      invariant forall bizKey :: bizKey in m <==> bizKey in before || AnyBiz(pod.containers[..i], bizKey)
      invariant forall bizKey :: bizKey in m && AnyBiz(pod.containers[..i], bizKey) ==> m[bizKey] == KeyOf(pod)
      invariant forall bizKey :: bizKey in m && !AnyBiz(pod.containers[..i], bizKey) ==> m[bizKey] == before[bizKey]
    {
      OneMoreContainer(pod.containers, i);
      if IsJar(pod.containers[i]) {
        m := m[BizKeyOf(pod.containers[i]) := KeyOf(pod)];
      }
    }
    assert pod.containers[..|pod.containers|] == pod.containers;
    OneMorePod(seen, pod);
  }

  lemma OneMoreContainer(containers: seq<Container>, i: nat)
    requires i < |containers|
    ensures forall bizKey :: AnyBiz(containers[..i + 1], bizKey) <==>
      AnyBiz(containers[..i], bizKey) || (IsJar(containers[i]) && BizKeyOf(containers[i]) == bizKey)
  {
    hide IsJar, BizKeyOf;
    var more := containers[..i + 1];
    forall bizKey ensures AnyBiz(more, bizKey) <==>
        AnyBiz(containers[..i], bizKey) || (IsJar(containers[i]) && BizKeyOf(containers[i]) == bizKey) {
      assert more[..|more| - 1] == containers[..i] && more[|more| - 1] == containers[i];
    }
  }

  lemma OneMorePod(pods: seq<Pod>, pod: Pod)
    ensures forall bizKey ::
      Owner(pods + [pod], bizKey) == if HasBiz(pod, bizKey) then Some(pod) else Owner(pods, bizKey)
  {
    hide HasBiz;
    assert (pods + [pod])[..|pods|] == pods;
  }

  /** The pod key of every business container of the pods; a later pod replaces an earlier one. */
  method CollectPodKeys(pods: seq<Pod>) returns (m: map<string, string>)
    ensures Collects(m, pods)
  {
    m := map[];
    for i := 0 to |pods|
      invariant Collects(m, pods[..i])
    {
      m := CollectOne(m, pods[..i], pods[i]);
      assert pods[..i + 1] == pods[..i] + [pods[i]];
    }
    assert pods[..|pods|] == pods;
  }

  lemma MergeOneMore(a: seq<BizStatus>, b: seq<BizStatus>, whole: seq<BizStatus>, r: BizStatus)
    requires Merges(a, b, whole)
    ensures Merges(a + [r], b, whole + [r]) && Merges(a, b + [r], whole + [r])
  {
    assert (whole + [r])[..|whole|] == whole;
    assert (a + [r])[..|a|] == a && (b + [r])[..|b|] == b;
  }

  /** Fill in one report's pod key from the collected ones. */
  method FillOne(m: map<string, string>, ghost pods: seq<Pod>, report: BizStatus) returns (r: BizStatus)
    requires Collects(m, pods)
    ensures r == Filled(pods, report)
    ensures r.podKey == "" ==> forall pod :: pod in pods ==> !HasBiz(pod, r.key)
  {
    hide HasBiz, Owner, KeyOf;
    FilledMeans(pods, report);
    r := report;
    if report.key in m && report.podKey == "" {
      r := report.(podKey := m[report.key]);
    }
  }

  ghost predicate Keyed(reports: seq<BizStatus>) {
    forall r :: r in reports ==> r.podKey != ""
  }

  /** Reports without a pod key whose container no pod has. */
  ghost predicate Ownerless(pods: seq<Pod>, reports: seq<BizStatus>) {
    forall r :: r in reports ==> r.podKey == "" && forall pod :: pod in pods ==> !HasBiz(pod, r.key)
  }

  /**
   Fill in the pod keys in place and split the reports: in their order, those with a pod key and
   those without.
   */
  method FillPodKey(pods: seq<Pod>, reports: array<BizStatus>)
    returns (toUpdate: seq<BizStatus>, toDelete: seq<BizStatus>)
    modifies reports
    ensures forall i :: 0 <= i < reports.Length ==> reports[i] == Filled(pods, old(reports[i]))
    ensures Merges(toUpdate, toDelete, reports[..])
    ensures Keyed(toUpdate) && Ownerless(pods, toDelete)
  {
    hide HasBiz, Owner, Merges, Filled, Collects;
    var m := CollectPodKeys(pods);
    toUpdate, toDelete := [], [];
    assert Merges([], [], reports[..0]) by { NothingMerges(reports[..0]); }
    for i := 0 to reports.Length
      invariant forall j :: 0 <= j < i ==> reports[j] == Filled(pods, old(reports[j]))
      invariant forall j :: i <= j < reports.Length ==> reports[j] == old(reports[j])
      invariant Merges(toUpdate, toDelete, reports[..i])
      invariant Keyed(toUpdate) && Ownerless(pods, toDelete)
    {
      ghost var before := reports[..i];
      reports[i] := FillOne(m, pods, reports[i]);
      MergeOneMore(toUpdate, toDelete, before, reports[i]);
      assert reports[..i + 1] == before + [reports[i]];
      if reports[i].podKey != "" {
        toUpdate := toUpdate + [reports[i]];
      } else {
        toDelete := toDelete + [reports[i]];
      }
    }
    assert reports[..reports.Length] == reports[..];
  }

  lemma NothingMerges(whole: seq<BizStatus>)
    requires whole == []
    ensures Merges([], [], whole)
  {
  }

  /** There is only one such split: which report goes where, and in which order, is determined. */
  lemma {:induction false} SplitIsUnique(a: seq<BizStatus>, b: seq<BizStatus>,
                                        c: seq<BizStatus>, d: seq<BizStatus>, whole: seq<BizStatus>)
    requires Merges(a, b, whole) && Keyed(a) && forall r :: r in b ==> r.podKey == ""
    requires Merges(c, d, whole) && Keyed(c) && forall r :: r in d ==> r.podKey == ""
    ensures a == c && b == d
  {
    if whole != [] {
      var n := |whole| - 1;
      if whole[n].podKey != "" {
        SplitIsUnique(a[..|a| - 1], b, c[..|c| - 1], d, whole[..n]);
        assert a == a[..|a| - 1] + [whole[n]] && c == c[..|c| - 1] + [whole[n]];
      } else {
        SplitIsUnique(a, b[..|b| - 1], c, d[..|d| - 1], whole[..n]);
        assert b == b[..|b| - 1] + [whole[n]] && d == d[..|d| - 1] + [whole[n]];
      }
    }
  }
}
