/** Pods, their containers and statuses, and what a base reports about one business container. */
module PodModel {
  import opened Wrappers
  import opened Strings
  import opened Codecs

  type Instant = int

  datatype EnvVar = EnvVar(name: string, value: string)

  /** Everything about a container but its name, image and environment is one opaque value. */
  datatype Container = Container(name: string, image: string, env: seq<EnvVar>, rest: string)

  datatype WaitingState = WaitingState(reason: string, message: string)
  datatype RunningState = RunningState(startedAt: Instant)
  datatype TerminatedState = TerminatedState(
    exitCode: int, reason: string, message: string, finishedAt: Instant, startedAt: Instant)

  datatype ContainerState = ContainerState(
    waiting: Option<WaitingState>,
    running: Option<RunningState>,
    terminated: Option<TerminatedState>)

  datatype ContainerStatus = ContainerStatus(
    name: string, containerId: string, state: ContainerState, ready: bool, started: Option<bool>, image: string,
        imageId: string)

  datatype PodPhase = PhaseUnset | Pending | Running | Succeeded | Failed | Unknown

  /** A condition of the pod: its type, and whether its status is "True". */
  datatype Condition = Condition(kind: string, isTrue: bool)

  datatype PodStatus = PodStatus(
    phase: PodPhase, conditions: seq<Condition>, podIP: string, containers: seq<ContainerStatus>, reason: string,
        message: string)

  /** The fields other than the containers that an update may change. */
  datatype Updatable = Updatable(
    initContainers: seq<Container>, activeDeadlineSeconds: Option<int>, tolerations: seq<string>,
    labels: map<string, string>, annotations: map<string, string>, finalizers: seq<string>)

  datatype Pod = Pod(
    namespace: string,
    name: string,
    uid: string,
    resourceVersion: string,
    deletion: Option<nat>,            // the grace period in seconds, once marked for deletion
    containers: seq<Container>,
    restartNever: bool,
    updatable: Updatable,
    rest: string,                     // everything that never changes
    status: PodStatus)

  datatype BizStatus = BizStatus(
    key: string, name: string, podKey: string, state: string, reason: string, message: string, changeTime: Instant)

  const EMPTY_STATE := ContainerState(None, None, None)

  function KeyOf(pod: Pod): string {
    PodKey(pod.namespace, pod.name)
  }

  /** Only containers whose image names a jar are business containers. */
  predicate IsJar(c: Container) {
    Contains(c.image, ".jar")
  }

  /** The value of the first BIZ_VERSION variable, or nothing. */
  function BizVersion(env: seq<EnvVar>): string {
    if env == [] then ""
    else if env[0].name == "BIZ_VERSION" then env[0].value
    else BizVersion(env[1..])
  }

  /** The version is the value of the first BIZ_VERSION variable, or empty if there is none. */
  predicate Versioned(env: seq<EnvVar>, version: string) {
    || (version == "" && forall i :: 0 <= i < |env| ==> env[i].name != "BIZ_VERSION")
    || (exists i | 0 <= i < |env| ::
          env[i] == EnvVar("BIZ_VERSION", version) && forall j :: 0 <= j < i ==> env[j].name != "BIZ_VERSION")
  }

  lemma {:induction false} VersionIsFirst(env: seq<EnvVar>, version: string)
    ensures BizVersion(env) == version <==> Versioned(env, version)
  {
    if env != [] {
      VersionIsFirst(env[1..], version);
      if env[0].name != "BIZ_VERSION" {
        assert forall i :: 0 < i < |env| ==> env[i] == env[1..][i - 1];
        assert forall i :: 0 <= i < |env| - 1 ==> env[1..][i] == env[i + 1];
      }
    }
  }

  function BizKeyOf(c: Container): string {
    BizKey(c.name, BizVersion(c.env))
  }

  predicate DistinctNames(containers: seq<Container>) {
    forall i, j :: 0 <= i < j < |containers| ==> containers[i].name != containers[j].name
  }

  function Jars(containers: seq<Container>): (r: seq<Container>)
    ensures forall c :: c in r <==> c in containers && IsJar(c)
  {
    if containers == [] then []
    else (if IsJar(containers[0]) then [containers[0]] else []) + Jars(containers[1..])
  }

  lemma {:induction false} JarsKeepNamesDistinct(containers: seq<Container>)
    requires DistinctNames(containers)
    ensures DistinctNames(Jars(containers))
  {
    if containers != [] {
      var tail := containers[1..];
      assert forall c :: c in tail ==> c.name != containers[0].name;
      JarsKeepNamesDistinct(tail);
    }
  }

  lemma {:induction false} JarsAppend(a: seq<Container>, b: seq<Container>)
    ensures Jars(a + b) == Jars(a) + Jars(b)
  {
    if a == [] {
      assert a + b == b;
    } else {
      assert (a + b)[0] == a[0] && (a + b)[1..] == a[1..] + b;
      JarsAppend(a[1..], b);
    }
  }
}
