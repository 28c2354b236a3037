/** How reports about business containers become container statuses and the status of their pod. */
module ContainerStatuses {
  import opened Wrappers
  import opened PodModel

  // ---------------------------------------------------------------- one container

  /** Simple case folding, as far as it reaches the letters of the state names. */
  function Fold(c: char): char {
    if 'a' <= c <= 'z' then (c as int - 'a' as int + 'A' as int) as char
    else if c == '\U{017F}' then 'S'
    else if c == '\U{212A}' then 'K'
    else c
  }

  /** Whether a reported state is a state name, whatever the case of its letters. */
  predicate EqualFold(reported: string, stateName: string) {
    |reported| == |stateName| && forall i :: 0 <= i < |reported| ==> Fold(reported[i]) == stateName[i]
  }

  /** A letter in either case, or one of the two other characters that fold to it. */
  predicate SameLetter(c: char, upper: char)
    requires 'A' <= upper <= 'Z'
  {
    || c == upper || (c as int) == (upper as int) + 32
    || (upper == 'S' && c == '\U{017F}') || (upper == 'K' && c == '\U{212A}')
  }

  /** Case is the only thing about a reported state that does not matter. */
  lemma EqualFoldIff(reported: string, stateName: string)
    requires forall i :: 0 <= i < |stateName| ==> 'A' <= stateName[i] <= 'Z'
    ensures EqualFold(reported, stateName) <==>
      |reported| == |stateName| && forall i :: 0 <= i < |reported| ==> SameLetter(reported[i], stateName[i])
  {
    forall i | 0 <= i < |reported| && i < |stateName|
      ensures Fold(reported[i]) == stateName[i] <==> SameLetter(reported[i], stateName[i]) {
      FoldIff(reported[i], stateName[i]);
    }
  }

  lemma FoldIff(c: char, upper: char)
    requires 'A' <= upper <= 'Z'
    ensures Fold(c) == upper <==> SameLetter(c, upper)
  {
  }

  const RESOLVED := "RESOLVED"
  const UNRESOLVED := "UNRESOLVED"
  const ACTIVATED := "ACTIVATED"
  const DEACTIVATED := "DEACTIVATED"
  const BROKEN := "BROKEN"
  const STOPPED := "STOPPED"

  datatype Conversion = Converted(status: ContainerStatus) | NameMismatch

  function NotStarted(c: Container): ContainerStatus {
    ContainerStatus(c.name, c.name, EMPTY_STATE, false, Some(false), c.image, c.image)
  }

  function StateOf(data: BizStatus): ContainerState {
    if EqualFold(data.state, UNRESOLVED) then EMPTY_STATE
    else if EqualFold(data.state, RESOLVED) || EqualFold(data.state, BROKEN) || EqualFold(data.state, DEACTIVATED) then
      EMPTY_STATE.(waiting := Some(WaitingState(data.reason, data.message)))
    else if EqualFold(data.state, ACTIVATED) then
      EMPTY_STATE.(running := Some(RunningState(data.changeTime)))
    else if EqualFold(data.state, STOPPED) then
      EMPTY_STATE.(terminated := Some(TerminatedState(1, data.reason, data.message, data.changeTime, data.changeTime)))
    else EMPTY_STATE
  }

  /** The status a report gives its own container. */
  function Reported(c: Container, data: BizStatus): ContainerStatus {
    var started := EqualFold(data.state, ACTIVATED);
    ContainerStatus(c.name, c.name, StateOf(data), started, Some(started), c.image, c.image)
  }

  function Convert(c: Container, before: Option<ContainerStatus>, data: Option<BizStatus>): Conversion {
    if before.None? && (data.None? || c.name != data.value.name) then Converted(NotStarted(c))
    else if data.None? || c.name != data.value.name then
      if before.value.name == c.name then Converted(before.value) else NameMismatch
    else Converted(Reported(c, data.value))
  }

  /** Conversion fails exactly when it would have to keep a status that is not the container's own. */
  lemma ConvertFailsIff(c: Container, before: Option<ContainerStatus>, data: Option<BizStatus>)
    ensures Convert(c, before, data).NameMismatch? <==>
      before.Some? && before.value.name != c.name && (data.None? || data.value.name != c.name)
    ensures Convert(c, before, data).Converted? ==> Convert(c, before, data).status.name == c.name
  {
  }

  /**
   The four outcomes of a report exclude each other: running and ready exactly when activated,
   waiting exactly when resolved, broken or deactivated, terminated exactly when stopped, and
   otherwise nothing; the reported reason, message and time go where they belong.
   */
  lemma ReportedStateIff(c: Container, data: BizStatus)
    ensures var s := Reported(c, data);
      && s.name == s.containerId == c.name && s.image == s.imageId == c.image
      && (s.ready <==> EqualFold(data.state, ACTIVATED)) && s.started == Some(s.ready)
      && (s.state.running.Some? <==> s.ready)
      && (s.state.waiting.Some? <==>
            EqualFold(data.state, RESOLVED) || EqualFold(data.state, BROKEN) || EqualFold(data.state, DEACTIVATED))
      && (s.state.terminated.Some? <==> EqualFold(data.state, STOPPED))
      && (s.ready ==> s.state.waiting.None? && s.state.terminated.None?)
      && (s.ready ==> s.state.running.value.startedAt == data.changeTime)
      && (s.state.waiting.Some? ==> s.state.terminated.None?)
      && (s.state.waiting.Some? ==> s.state.waiting.value == WaitingState(data.reason, data.message))
      && (s.state.terminated.Some? ==> var t := s.state.terminated.value;
            t.exitCode == 1 && t.reason == data.reason && t.message == data.message
            && t.finishedAt == t.startedAt == data.changeTime)
  {
    assert |UNRESOLVED| == 10 && |RESOLVED| == 8 && |BROKEN| == 6 && |DEACTIVATED| == 11 && |ACTIVATED| == 9 &&
        |STOPPED| == 7;
  }

  // ---------------------------------------------------------------- all containers of a pod

  /** The last status listed under a name. */
  function StatusNamed(statuses: seq<ContainerStatus>, name: string): (r: Option<ContainerStatus>)
    ensures r.Some? ==> r.value.name == name
  {
    if statuses == [] then None
    else
      var n := |statuses| - 1;
      if statuses[n].name == name then Some(statuses[n]) else StatusNamed(statuses[..n], name)
  }

  /** The status found under a name is the last one of that name. */
  lemma {:induction false} NamedIsLast(statuses: seq<ContainerStatus>, name: string)
    ensures match StatusNamed(statuses, name)
      case None => forall i :: 0 <= i < |statuses| ==> statuses[i].name != name
      case Some(s) => exists k :: 0 <= k < |statuses| && statuses[k] == s && s.name == name
                        && forall i :: k < i < |statuses| ==> statuses[i].name != name
  {
    if statuses != [] {
      var n := |statuses| - 1;
      if statuses[n].name == name {
        assert statuses[n] == StatusNamed(statuses, name).value;
      } else {
        NamedIsLast(statuses[..n], name);
        assert forall i :: 0 <= i < n ==> statuses[..n][i] == statuses[i];
      }
    }
  }

  /** The status of one container after a report: always its own. */
  function StatusAfter(c: Container, before: seq<ContainerStatus>, data: BizStatus): (r: ContainerStatus)
    ensures r.name == c.name
  {
    ConvertFailsIff(c, StatusNamed(before, c.name), Some(data));
    Convert(c, StatusNamed(before, c.name), Some(data)).status
  }

  function StatusesAfter(jars: seq<Container>, before: seq<ContainerStatus>, data: BizStatus): (r: seq<ContainerStatus>)
    ensures |r| == |jars|
    ensures forall i :: 0 <= i < |jars| ==> r[i] == StatusAfter(jars[i], before, data)
  {
    seq(|jars|, i requires 0 <= i < |jars| => StatusAfter(jars[i], before, data))
  }

  datatype Kind = Ready | Terminated | NotReady | NotInitialised

  function KindOf(s: ContainerStatus): Kind {
    if s.ready then Ready
    else if s.state.terminated.Some? then Terminated
    else if s.state.waiting.Some? || s.state.running.Some? then NotReady
    else NotInitialised
  }

  /** The phase of a pod with these container statuses, in whatever order. */
  ghost function PhaseFor(statuses: set<ContainerStatus>): PodPhase {
    if forall s :: s in statuses ==> KindOf(s) == Terminated then Succeeded
    else if exists s :: s in statuses && (KindOf(s) == Ready || KindOf(s) == NotReady) then Running
    else Pending
  }

  /** A pod is ready when it has a business container and all of them are ready. */
  ghost predicate ReadyFor(statuses: set<ContainerStatus>) {
    statuses != {} && forall s :: s in statuses ==> KindOf(s) == Ready
  }

  ghost function Distinct(statuses: seq<ContainerStatus>): set<ContainerStatus> {
    set s | s in statuses
  }

  function Conditions(ready: bool): seq<Condition> {
    [Condition("Ready", ready), Condition("ContainersReady", ready)]
  }

  /** The status of a pod after a report about one of its containers. */
  ghost function PodStatusAfter(localIP: string, pod: Pod, data: BizStatus): PodStatus {
    var statuses := StatusesAfter(Jars(pod.containers), pod.status.containers, data);
    PodStatus(PhaseFor(Distinct(statuses)), Conditions(ReadyFor(Distinct(statuses))), localIP, statuses, "", "")
  }

  /** Ready, or waiting or running without having terminated. */
  predicate Active(s: ContainerStatus) {
    s.ready || (s.state.terminated.None? && (s.state.waiting.Some? || s.state.running.Some?))
  }

  /**
   The phase and the conditions by the container states: Succeeded if every container has terminated
   and is not ready, else Running if one is ready, or waits or runs and has not terminated, else
   Pending; ready if there is a container and all are.
   */
  ghost predicate ByStates(r: PodStatus) {
    var ss := r.containers;
    var ended := forall i :: 0 <= i < |ss| ==> !ss[i].ready && ss[i].state.terminated.Some?;
    var active := exists i :: 0 <= i < |ss| && Active(ss[i]);
    var ready := ss != [] && forall i :: 0 <= i < |ss| ==> ss[i].ready;
    && r.phase == (if ended then Succeeded else if active then Running else Pending)
    && r.conditions == [Condition("Ready", ready), Condition("ContainersReady", ready)]
  }

  lemma StatusIsByStates(localIP: string, pod: Pod, data: BizStatus)
    ensures ByStates(PodStatusAfter(localIP, pod, data))
  {
    hide Jars, StatusAfter, StatusesAfter;
    var ss := StatusesAfter(Jars(pod.containers), pod.status.containers, data);
    DistinctByIndex(ss);
  }

  /** What holds of the statuses without order holds of each place, and the other way round. */
  lemma DistinctByIndex(ss: seq<ContainerStatus>)
    ensures (forall s :: s in Distinct(ss) ==> KindOf(s) == Terminated) <==>
      forall i :: 0 <= i < |ss| ==> !ss[i].ready && ss[i].state.terminated.Some?
    ensures (exists s :: s in Distinct(ss) && (KindOf(s) == Ready || KindOf(s) == NotReady)) <==>
      exists i :: 0 <= i < |ss| && Active(ss[i])
    ensures ReadyFor(Distinct(ss)) <==> ss != [] && forall i :: 0 <= i < |ss| ==> ss[i].ready
  {
    assert forall i :: 0 <= i < |ss| ==> ss[i] in Distinct(ss);
    assert forall s :: s in Distinct(ss) ==> exists i :: 0 <= i < |ss| && ss[i] == s;
    if ss != [] {
      assert ss[0] in Distinct(ss);
    }
  }

  function Count(statuses: seq<ContainerStatus>, kind: Kind): (r: nat)
    ensures r <= |statuses|
  {
    if statuses == [] then 0
    else
      var n := |statuses| - 1;
      Count(statuses[..n], kind) + (if KindOf(statuses[n]) == kind then 1 else 0)
  }

  /** The four counters of a pod's containers partition them. */
  lemma {:induction false} CountersPartition(statuses: seq<ContainerStatus>)
    ensures Count(statuses, Ready) + Count(statuses, Terminated) + Count(statuses, NotReady)
         + Count(statuses, NotInitialised) == |statuses|
  {
    if statuses != [] {
      CountersPartition(statuses[..|statuses| - 1]);
    }
  }

  /** What a counter says about the statuses, read without order. */
  lemma {:induction false} CounterSays(statuses: seq<ContainerStatus>, kind: Kind)
    ensures Count(statuses, kind) == |statuses| <==> forall s :: s in statuses ==> KindOf(s) == kind
    ensures Count(statuses, kind) > 0 <==> exists s :: s in statuses && KindOf(s) == kind
  {
    hide KindOf;
    if statuses != [] {
      var front, last := statuses[..|statuses| - 1], statuses[|statuses| - 1];
      CounterSays(front, kind);
      MembersSplit(statuses);
    }
  }

  lemma MembersSplit(statuses: seq<ContainerStatus>)
    requires statuses != []
    ensures forall s :: s in statuses <==> s in statuses[..|statuses| - 1] || s == statuses[|statuses| - 1]
  {
  }

  /** Phase and readiness as the program decides them on its counters. */
  function Decide(total: nat, ready: nat, terminated: nat, notReady: nat, notInited: nat): (PodPhase, bool) {
    if total == 0 || total == terminated then (Succeeded, false)
    else if notInited == total then (Pending, false)
    else if total == ready then (Running, true)
    else if notReady > 0 || 0 < ready < total then (Running, false)
    else (Pending, false)
  }

  /** The decision on the counters is the one on the statuses without order or multiplicity. */
  lemma DecideIsExact(statuses: seq<ContainerStatus>)
    ensures Decide(|statuses|, Count(statuses, Ready), Count(statuses, Terminated), Count(statuses, NotReady),
                   Count(statuses, NotInitialised)) == (PhaseFor(Distinct(statuses)), ReadyFor(Distinct(statuses)))
  {
    CountersPartition(statuses);
    CounterSays(statuses, Ready);
    CounterSays(statuses, Terminated);
    CounterSays(statuses, NotReady);
    hide Count, KindOf;
    if statuses != [] {
      assert statuses[0] in Distinct(statuses);
    }
    var n, ready, notReady := |statuses|, Count(statuses, Ready), Count(statuses, NotReady);
    assert (forall s :: s in Distinct(statuses) ==> KindOf(s) == Terminated) <==> Count(statuses, Terminated) == n;
    assert (forall s :: s in Distinct(statuses) ==> KindOf(s) == Ready) <==> ready == n;
    assert (exists s :: s in Distinct(statuses) && (KindOf(s) == Ready || KindOf(s) == NotReady)) <==>
        ready + notReady > 0;
  }

  /** The statuses of a pod by container name; a later one replaces an earlier one of its name. */
  method IndexByName(statuses: seq<ContainerStatus>) returns (named: map<string, ContainerStatus>)
    ensures forall name :: StatusNamed(statuses, name) == if name in named then Some(named[name]) else None
  {
    named := map[];
    for i := 0 to |statuses|
      invariant forall name :: StatusNamed(statuses[..i], name) == if name in named then Some(named[name]) else None
    {
      named := named[statuses[i].name := statuses[i]];
      assert statuses[..i + 1][..i] == statuses[..i];
    }
    assert statuses[..|statuses|] == statuses;
  }

  lemma NextStatus(containers: seq<Container>, before: seq<ContainerStatus>, data: BizStatus, i: nat)
    requires i < |containers|
    ensures StatusesAfter(Jars(containers[..i + 1]), before, data) == StatusesAfter(Jars(containers[..i]), before, data)
      + (if IsJar(containers[i]) then [StatusAfter(containers[i], before, data)] else [])
  {
    hide IsJar, StatusAfter;
    assert containers[..i + 1] == containers[..i] + [containers[i]];
    JarsAppend(containers[..i], [containers[i]]);
    assert Jars([]) == [];
  }

  lemma CountOneMore(statuses: seq<ContainerStatus>, s: ContainerStatus, kind: Kind)
    ensures Count(statuses + [s], kind) == Count(statuses, kind) + (if KindOf(s) == kind then 1 else 0)
  {
    var more := statuses + [s];
    assert more[..|more| - 1] == statuses && more[|more| - 1] == s;
  }

  /** One status more, as the program counts it. */
  method CountStatus(s: ContainerStatus, ready: nat, terminated: nat, notReady: nat, notInited: nat,
                     ghost statuses: seq<ContainerStatus>)
    returns (ready': nat, terminated': nat, notReady': nat, notInited': nat)
    requires ready == Count(statuses, Ready) && terminated == Count(statuses, Terminated)
    requires notReady == Count(statuses, NotReady) && notInited == Count(statuses, NotInitialised)
    ensures ready' == Count(statuses + [s], Ready) && terminated' == Count(statuses + [s], Terminated)
    ensures notReady' == Count(statuses + [s], NotReady) && notInited' == Count(statuses + [s], NotInitialised)
  {
    hide Count;
    CountOneMore(statuses, s, Ready);
    CountOneMore(statuses, s, Terminated);
    CountOneMore(statuses, s, NotReady);
    CountOneMore(statuses, s, NotInitialised);
    ready', terminated', notReady', notInited' := ready, terminated, notReady, notInited;
    if s.ready {
      ready' := ready + 1;
    } else if s.state.terminated.Some? {
      terminated' := terminated + 1;
    } else if s.state.waiting.Some? || s.state.running.Some? {
      notReady' := notReady + 1;
    } else {
      notInited' := notInited + 1;
    }
  }

  /**
   The status of a pod after a report, computed as the program does: one pass over the containers
   with four counters, then a decision on the counters.
   */
  method GetPodStatus(localIP: string, pod: Pod, data: BizStatus) returns (r: PodStatus)
    ensures r == PodStatusAfter(localIP, pod, data)
    ensures r.podIP == localIP && ByStates(r)
  {
    hide Jars, Convert, PhaseFor, ReadyFor, IsJar, StatusNamed, Count, KindOf, StatusesAfter;
    var named := IndexByName(pod.status.containers);
    var statuses: seq<ContainerStatus> := [];
    var total, ready, terminated, notReady, notInited := 0, 0, 0, 0, 0;
    NothingYet(pod.containers[..0], pod.status.containers, data);
    for i := 0 to |pod.containers|
      invariant statuses == StatusesAfter(Jars(pod.containers[..i]), pod.status.containers, data)
      invariant total == |statuses|
      invariant ready == Count(statuses, Ready) && terminated == Count(statuses, Terminated)
      invariant notReady == Count(statuses, NotReady) && notInited == Count(statuses, NotInitialised)
    {
      var c := pod.containers[i];
      NextStatus(pod.containers, pod.status.containers, data, i);
      if !IsJar(c) {
        continue;
      }
      var before := if c.name in named then Some(named[c.name]) else None;
      ConvertFailsIff(c, before, Some(data));
      var s := Convert(c, before, Some(data)).status;
      assert s == StatusAfter(c, pod.status.containers, data);
      ready, terminated, notReady, notInited := CountStatus(s, ready, terminated, notReady, notInited, statuses);
      statuses := statuses + [s];
      total := total + 1;
    }
    assert pod.containers[..|pod.containers|] == pod.containers;
    DecideIsExact(statuses);
    var (phase, isReady) := Decide(total, ready, terminated, notReady, notInited);
    r := PodStatus(phase, Conditions(isReady), localIP, statuses, "", "");
    StatusIsByStates(localIP, pod, data);
  }

  lemma NothingYet(containers: seq<Container>, before: seq<ContainerStatus>, data: BizStatus)
    requires containers == []
    ensures StatusesAfter(Jars(containers), before, data) == []
    ensures forall kind :: Count([], kind) == 0
  {
  }
}
