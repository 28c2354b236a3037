/**
 What updating a pod stops and starts, and what then runs. Containers run by name: starting one
 replaces whatever ran under its name, stopping one removes it.
 */
module ContainerDiff {
  import opened Wrappers
  import opened PodModel
  import opened ContainerStatuses

  type Containers = map<string, Container>

  /** A pod's containers by name; a later one replaces an earlier one of its name. */
  function ByName(containers: seq<Container>): (r: Containers)
    ensures forall name :: name in r ==> r[name].name == name && r[name] in containers
    ensures forall c :: c in containers ==> c.name in r
  {
    if containers == [] then map[]
    else
      var n := |containers| - 1;
      var r := ByName(containers[..n]);
      assert containers == containers[..n] + [containers[n]];
      r[containers[n].name := containers[n]]
  }

  /** The last container of a name stands for it. */
  predicate LastOfName(containers: seq<Container>, k: nat) {
    k < |containers| && forall i :: k < i < |containers| ==> containers[i].name != containers[k].name
  }

  lemma {:induction false} ByNameIsLast(containers: seq<Container>, k: nat)
    requires LastOfName(containers, k)
    ensures containers[k].name in ByName(containers) && ByName(containers)[containers[k].name] == containers[k]
  {
    hide ByName;
    var n := |containers| - 1;
    LaterReplaces(containers);
    if k < n {
      ByNameIsLast(containers[..n], k);
    }
  }

  lemma LaterReplaces(containers: seq<Container>)
    requires containers != []
    ensures var n := |containers| - 1;
      ByName(containers) == ByName(containers[..n])[containers[n].name := containers[n]]
  {
  }

  /** The containers that changed, as they were. */
  function ToStop(before: Containers, wanted: Containers): Containers {
    map name | name in before && name in wanted && before[name] != wanted[name] :: before[name]
  }

  /** The containers that changed or are new, as they shall be. */
  function ToStart(before: Containers, wanted: Containers): Containers {
    map name | name in wanted && (name !in before || before[name] != wanted[name]) :: wanted[name]
  }

  /** A list of exactly these containers, each once, in some order. */
  ghost predicate Lists(list: seq<Container>, containers: Containers) {
    && DistinctNames(list)
    && (forall c :: c in list ==> c.name in containers && containers[c.name] == c)
    && (forall name :: name in containers ==> containers[name] in list)
  }

  // ---------------------------------------------------------------- the effect of the calls

  datatype Call =
    | StartBiz(node: string, podKey: string, container: Container)
    | StopBiz(node: string, podKey: string, container: Container)

  function Starts(node: string, podKey: string, containers: seq<Container>): (r: seq<Call>)
    ensures |r| == |containers|
  {
    seq(|containers|, i requires 0 <= i < |containers| => StartBiz(node, podKey, containers[i]))
  }

  function Stops(node: string, podKey: string, containers: seq<Container>): (r: seq<Call>)
    ensures |r| == |containers|
  {
    seq(|containers|, i requires 0 <= i < |containers| => StopBiz(node, podKey, containers[i]))
  }

  /** What runs on the base after calls. */
  function Run(running: Containers, calls: seq<Call>): Containers {
    if calls == [] then running
    else
      var n := |calls| - 1;
      var before := Run(running, calls[..n]);
      match calls[n]
      case StartBiz(_, _, c) => before[c.name := c]
      case StopBiz(_, _, c) => before - {c.name}
  }

  lemma {:induction false} RunAppend(running: Containers, a: seq<Call>, b: seq<Call>)
    ensures Run(running, a + b) == Run(Run(running, a), b)
  {
    if b == [] {
      assert a + b == a;
    } else {
      var n := |b| - 1;
      assert (a + b)[..|a| + n] == a + b[..n];
      RunAppend(running, a, b[..n]);
    }
  }

  lemma {:induction false} RunStops(running: Containers, node: string, podKey: string, list: seq<Container>)
    ensures forall name :: name in Run(running, Stops(node, podKey, list)) <==>
      name in running && (forall c :: c in list ==> c.name != name)
    ensures forall name :: name in Run(running, Stops(node, podKey, list)) ==>
      Run(running, Stops(node, podKey, list))[name] == running[name]
  {
    if list != [] {
      var n := |list| - 1;
      RunStops(running, node, podKey, list[..n]);
      assert Stops(node, podKey, list)[..n] == Stops(node, podKey, list[..n]);
      assert list == list[..n] + [list[n]];
    }
  }

  lemma {:induction false} RunStarts(running: Containers, node: string, podKey: string, list: seq<Container>)
    requires DistinctNames(list)
    ensures forall name :: name in Run(running, Starts(node, podKey, list)) <==>
      name in running || (exists c :: c in list && c.name == name)
    ensures forall name :: name in Run(running, Starts(node, podKey, list)) ==>
      var r := Run(running, Starts(node, podKey, list))[name];
      (r in list && r.name == name) || (name in running && r == running[name] && forall c :: c in list ==>
          c.name != name)
  {
    if list != [] {
      var n := |list| - 1;
      RunStarts(running, node, podKey, list[..n]);
      assert Starts(node, podKey, list)[..n] == Starts(node, podKey, list[..n]);
      assert list == list[..n] + [list[n]];
    }
  }

  lemma StoppingListed(running: Containers, node: string, podKey: string, list: seq<Container>, containers: Containers)
    requires Lists(list, containers) && forall name :: name in containers ==> containers[name].name == name
    ensures Run(running, Stops(node, podKey, list)) == running - containers.Keys
  {
    RunStops(running, node, podKey, list);
    var after := Run(running, Stops(node, podKey, list));
    forall name | name in running ensures name in after <==> name !in containers {
      if name in containers {
        assert containers[name] in list;
      }
    }
  }

  lemma StartingListed(running: Containers, node: string, podKey: string, list: seq<Container>, containers: Containers)
    requires Lists(list, containers) && forall name :: name in containers ==> containers[name].name == name
    ensures Run(running, Starts(node, podKey, list)) == running + containers
  {
    RunStarts(running, node, podKey, list);
    var after := Run(running, Starts(node, podKey, list));
    forall name ensures name in after <==> name in running || name in containers {
      if name in containers {
        assert containers[name] in list;
      }
    }
    forall name | name in after ensures after[name] == (running + containers)[name] {
      if name in containers {
        assert containers[name] in list;
      }
    }
  }

  /**
   The diff is correct: if the pod's old containers run, stopping what changed and then starting
   what changed or is new leaves the new containers running, and of the old ones those the new pod
   no longer names. That is exactly the new containers iff every old name is still named.
   */
  lemma DiffIsCorrect(before: Containers, wanted: Containers, node: string, stopKey: string, startKey: string,
                      stopped: seq<Container>, started: seq<Container>)
    requires forall name :: name in before ==> before[name].name == name
    requires forall name :: name in wanted ==> wanted[name].name == name
    requires Lists(stopped, ToStop(before, wanted)) && Lists(started, ToStart(before, wanted))
    ensures var after := Run(before, Stops(node, stopKey, stopped) + Starts(node, startKey, started));
      && after == before + wanted
      && (after == wanted <==> before.Keys <= wanted.Keys)
  {
    hide Run, Lists, Starts, Stops;
    RunAppend(before, Stops(node, stopKey, stopped), Starts(node, startKey, started));
    StoppingListed(before, node, stopKey, stopped, ToStop(before, wanted));
    StartingListed(before - ToStop(before, wanted).Keys, node, startKey, started, ToStart(before, wanted));
    DiffReplaces(before, wanted);
  }

  lemma DiffReplaces(before: Containers, wanted: Containers)
    ensures before - ToStop(before, wanted).Keys + ToStart(before, wanted) == before + wanted
    ensures before + wanted == wanted <==> before.Keys <= wanted.Keys
  {
    var after := before - ToStop(before, wanted).Keys + ToStart(before, wanted);
    assert after.Keys == (before + wanted).Keys;
    assert (before + wanted).Keys == before.Keys + wanted.Keys;
    if before.Keys <= wanted.Keys {
      assert (before + wanted).Keys == wanted.Keys;
    }
  }

  /** The two lists, container by container: what is stopped is as it was, what is started as it shall be. */
  lemma DiffByContainer(before: Containers, wanted: Containers, stopped: seq<Container>, started: seq<Container>)
    requires forall name :: name in before ==> before[name].name == name
    requires forall name :: name in wanted ==> wanted[name].name == name
    requires Lists(stopped, ToStop(before, wanted)) && Lists(started, ToStart(before, wanted))
    ensures DistinctNames(stopped) && DistinctNames(started)
    ensures forall c :: c in stopped <==>
      c.name in before && c == before[c.name] && c.name in wanted && wanted[c.name] != c
    ensures forall c :: c in started <==>
      c.name in wanted && c == wanted[c.name] && (c.name in before ==> before[c.name] != c)
  {
    var stop, start := ToStop(before, wanted), ToStart(before, wanted);
    forall c: Container | c.name in stop && stop[c.name] == c ensures c in stopped {}
    forall c: Container | c.name in start && start[c.name] == c ensures c in started {}
  }

  /** No call names a container that is the same before and after, or one the new pod dropped. */
  lemma UnchangedIsUntouched(before: Containers, wanted: Containers,
                             stopped: seq<Container>, started: seq<Container>, name: string)
    requires Lists(stopped, ToStop(before, wanted)) && Lists(started, ToStart(before, wanted))
    requires name in before && (name in wanted ==> before[name] == wanted[name])
    ensures forall c :: c in stopped || c in started ==> c.name != name
  {
  }

  // ---------------------------------------------------------------- waiting for the stops

  /** What one poll of the pod answers. */
  datatype Poll = PodGone | PollFailed | Statuses(statuses: seq<ContainerStatus>)

  /** Every stopped container has no status any more or a terminated one. */
  predicate Confirmed(stopped: seq<Container>, statuses: seq<ContainerStatus>) {
    forall i :: 0 <= i < |stopped| ==>
      var s := StatusNamed(statuses, stopped[i].name);
      s.None? || s.value.state.terminated.Some?
  }

  /** Whether some poll confirms the stops before the pod is gone or the time is over. */
  ghost predicate ConfirmedInTime(stopped: seq<Container>, polls: seq<Poll>) {
    exists i :: 0 <= i < |polls| && polls[i].Statuses? && Confirmed(stopped, polls[i].statuses)
      && forall j :: 0 <= j < i ==> !polls[j].PodGone?
  }

  /** The last status of a name stands for it. */
  predicate LastStatusOf(statuses: seq<ContainerStatus>, k: nat, name: string) {
    k < |statuses| && statuses[k].name == name && forall i :: k < i < |statuses| ==> statuses[i].name != name
  }

  /** Confirmed means that no stopped container has a status that is not terminated. */
  lemma ConfirmedByStates(stopped: seq<Container>, statuses: seq<ContainerStatus>)
    ensures Confirmed(stopped, statuses) <==>
      forall c, k: nat :: c in stopped && LastStatusOf(statuses, k, c.name) ==> statuses[k].state.terminated.Some?
  {
    forall c, k: nat | c in stopped && LastStatusOf(statuses, k, c.name)
      ensures StatusNamed(statuses, c.name) == Some(statuses[k]) {
      NamedIsLast(statuses, c.name);
    }
    forall i | 0 <= i < |stopped| && StatusNamed(statuses, stopped[i].name).Some?
      ensures exists k: nat :: LastStatusOf(statuses, k, stopped[i].name) &&
                statuses[k] == StatusNamed(statuses, stopped[i].name).value {
      NamedIsLast(statuses, stopped[i].name);
      var s := StatusNamed(statuses, stopped[i].name).value;
      var k :| 0 <= k < |statuses| && statuses[k] == s && s.name == stopped[i].name
               && forall i' :: k < i' < |statuses| ==> statuses[i'].name != stopped[i].name;
      assert LastStatusOf(statuses, k, stopped[i].name);
    }
  }

  /** No start follows the stops unless some poll shows that no stopped container has a status but a terminated one. */
  lemma ConfirmedInTimeByStates(stopped: seq<Container>, polls: seq<Poll>)
    requires ConfirmedInTime(stopped, polls)
    ensures exists i ::
      && 0 <= i < |polls| && polls[i].Statuses? && (forall j :: 0 <= j < i ==> !polls[j].PodGone?)
      && forall c, k: nat :: c in stopped && LastStatusOf(polls[i].statuses, k, c.name) ==>
           polls[i].statuses[k].state.terminated.Some?
  {
    var i :| 0 <= i < |polls| && polls[i].Statuses? && Confirmed(stopped, polls[i].statuses)
             && forall j :: 0 <= j < i ==> !polls[j].PodGone?;
    hide Confirmed;
    ConfirmedByStates(stopped, polls[i].statuses);
  }

  method IsConfirmed(stopped: seq<Container>, statuses: seq<ContainerStatus>) returns (r: bool)
    ensures r == Confirmed(stopped, statuses)
    ensures r <==> forall c, k: nat :: c in stopped && LastStatusOf(statuses, k, c.name) ==>
      statuses[k].state.terminated.Some?
  {
    ConfirmedByStates(stopped, statuses);
    var named := IndexByName(statuses);
    for i := 0 to |stopped|
      invariant forall j :: 0 <= j < i ==>
        var s := StatusNamed(statuses, stopped[j].name); s.None? || s.value.state.terminated.Some?
    {
      if stopped[i].name in named && named[stopped[i].name].state.terminated.None? {
        assert StatusNamed(statuses, stopped[i].name) == Some(named[stopped[i].name]);
        return false;
      }
    }
    return true;
  }

  method WaitStopped(stopped: seq<Container>, polls: seq<Poll>) returns (confirmed: bool)
    ensures confirmed == ConfirmedInTime(stopped, polls)
    ensures confirmed <==>
      exists i :: 0 <= i < |polls| && polls[i].Statuses? && Confirmed(stopped, polls[i].statuses)
        && forall j :: 0 <= j < i ==> !polls[j].PodGone?
  {
    for i := 0 to |polls|
      invariant forall j :: 0 <= j < i ==> !polls[j].PodGone?
      invariant forall j :: 0 <= j < i ==> polls[j].Statuses? ==> !Confirmed(stopped, polls[j].statuses)
    {
      match polls[i] {
        case PodGone => return false;
        case PollFailed =>
        case Statuses(statuses) =>
          var done := IsConfirmed(stopped, statuses);
          if done {
            return true;
          }
      }
    }
    return false;
  }

  // ---------------------------------------------------------------- computing the diff

  method IndexContainers(containers: seq<Container>) returns (r: Containers)
    ensures r == ByName(containers)
  {
    r := map[];
    for i := 0 to |containers|
      invariant r == ByName(containers[..i])
    {
      r := r[containers[i].name := containers[i]];
      assert containers[..i + 1][..i] == containers[..i];
    }
    assert containers[..|containers|] == containers;
  }

  lemma ListsOneMore(list: seq<Container>, containers: Containers, c: Container)
    requires Lists(list, containers) && c.name !in containers
    ensures Lists(list + [c], containers[c.name := c])
  {
    var longer, grown := list + [c], containers[c.name := c];
    assert longer[|list|] == c;
    forall name | name in grown ensures grown[name] in longer {
      if name != c.name {
        assert containers[name] in list;
      }
    }
  }

  /** The containers that changed, as they shall be. */
  function ToRestart(before: Containers, wanted: Containers): Containers {
    map name | name in before && name in wanted && before[name] != wanted[name] :: wanted[name]
  }

  lemma OneLeftLess(containers: Containers, left: set<string>, name: string)
    requires name in left
    ensures containers - (left - {name}) ==
      if name in containers then (containers - left)[name := containers[name]] else containers - left
    ensures name !in containers - left
  {
  }

  lemma ChangedAt(before: Containers, wanted: Containers)
    ensures ToStop(before, wanted) - before.Keys == ToRestart(before, wanted) - before.Keys == map[]
    ensures ToStart(before, wanted) - (wanted.Keys - before.Keys) == ToRestart(before, wanted)
    ensures forall name :: name in ToStop(before, wanted) <==>
        name in before && name in wanted && before[name] != wanted[name]
    ensures forall name :: name in ToStop(before, wanted) ==> ToStop(before, wanted)[name] == before[name]
    ensures forall name :: name in ToRestart(before, wanted) <==>
        name in before && name in wanted && before[name] != wanted[name]
    ensures forall name :: name in ToRestart(before, wanted) ==> ToRestart(before, wanted)[name] == wanted[name]
    ensures forall name :: name in wanted && name !in before ==>
      name in ToStart(before, wanted) && ToStart(before, wanted)[name] == wanted[name]
  {
  }

  /** Go through the old containers in some order and collect those that changed, as they were and shall be. */
  method CollectChanged(before: Containers, wanted: Containers)
    returns (stopped: seq<Container>, started: seq<Container>)
    requires forall name :: name in before ==> before[name].name == name
    requires forall name :: name in wanted ==> wanted[name].name == name
    ensures Lists(stopped, ToStop(before, wanted)) && Lists(started, ToRestart(before, wanted))
  {
    hide Lists, ToStop, ToRestart, ToStart;
    stopped, started := [], [];
    ghost var stop, start := ToStop(before, wanted), ToRestart(before, wanted);
    NothingListed();
    ChangedAt(before, wanted);
    var names := before.Keys;
    while names != {}
      invariant names <= before.Keys
      invariant Lists(stopped, stop - names) && Lists(started, start - names)
      decreases |names|
    {
      var name :| name in names;
      OneLeftLess(stop, names, name);
      OneLeftLess(start, names, name);
      if name in wanted && wanted[name] != before[name] {
        ListsOneMore(stopped, stop - names, before[name]);
        ListsOneMore(started, start - names, wanted[name]);
        stopped := stopped + [before[name]];
        started := started + [wanted[name]];
      }
      names := names - {name};
    }
    assert stop - {} == stop && start - {} == start;
  }

  /** Go through the new containers in some order and collect those without an old one of their name. */
  method CollectNew(before: Containers, wanted: Containers, changed: seq<Container>) returns (started: seq<Container>)
    requires forall name :: name in wanted ==> wanted[name].name == name
    requires Lists(changed, ToRestart(before, wanted))
    ensures Lists(started, ToStart(before, wanted))
  {
    hide Lists, ToStop, ToRestart, ToStart;
    started := changed;
    ghost var start := ToStart(before, wanted);
    ChangedAt(before, wanted);
    var names := wanted.Keys;
    ghost var left := names - before.Keys;
    while names != {}
      invariant names <= wanted.Keys && (forall name :: name in left <==> name in names && name !in before)
      invariant Lists(started, start - left)
      decreases |names|
    {
      var name :| name in names;
      names := names - {name};
      if name !in before {
        OneLeftLess(start, left, name);
        ListsOneMore(started, start - left, wanted[name]);
        started := started + [wanted[name]];
        left := left - {name};
      }
    }
    assert start - left == start;
  }

  lemma NothingListed()
    ensures Lists([], map[])
  {
  }
}
