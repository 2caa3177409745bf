/** The Kubernetes values the tracker and the provider exchange, and the heap form of a pod. */
module Kube {

  datatype Option<+T> = None | Some(value: T)

  /** Nanoseconds since the Unix epoch. */
  type Time = int

  /** The zero value of Go's time.Time, 1 January of year 1. */
  const ZERO_TIME: Time := -62_135_596_800_000_000_000

  datatype PodId = PodId(namespace: string, name: string)

  datatype Phase = Unset | Pending | Running | Succeeded | Failed | Unknown

  datatype ConditionType = PodInitialized | PodReady | PodScheduled

  datatype PodCondition = PodCondition(kind: ConditionType, holds: bool, lastTransition: Time)

  datatype Termination = Termination(
    exitCode: int,
    reason: string,
    message: string,
    startedAt: Time,
    finishedAt: Time,
    containerID: string)

  /** Three optional members; the API promises that at most one of them is set. */
  datatype ContainerState = ContainerState(
    waiting: Option<string>,
    running: Option<Time>,
    terminated: Option<Termination>)

  const NO_STATE := ContainerState(None, None, None)

  datatype ContainerStatus = ContainerStatus(
    name: string,
    image: string,
    imageID: string,
    containerID: string,
    ready: bool,
    started: Option<bool>,
    restartCount: int,
    state: ContainerState)

  datatype PodStatus = PodStatus(
    phase: Phase,
    reason: string,
    message: string,
    hostIP: string,
    podIP: string,
    startTime: Option<Time>,
    conditions: seq<PodCondition>,
    containerStatuses: seq<ContainerStatus>)

  datatype ContainerPort = ContainerPort(name: string, containerPort: int)

  datatype EnvVar = EnvVar(name: string, value: string)

  /** A limit is the integer its quantity reports; a missing limit reports zero. */
  datatype ContainerSpec = ContainerSpec(
    name: string,
    image: string,
    ports: seq<ContainerPort>,
    env: seq<EnvVar>,
    cpuLimit: int,
    memoryLimit: int)

  datatype PodValue = PodValue(
    id: PodId,
    uid: string,
    created: Time,
    containers: seq<ContainerSpec>,
    resourceVersion: string,
    deletionTimestamp: Option<Time>,
    status: PodStatus)

  predicate Exclusive(s: ContainerState) {
    && (s.waiting.Some? ==> s.running.None? && s.terminated.None?)
    && (s.running.Some? ==> s.terminated.None?)
  }

  predicate ExclusiveStatus(s: PodStatus) {
    forall c <- s.containerStatuses :: Exclusive(c.state)
  }

  /** A pod as the program holds it: the container statuses live in a buffer of their own, so
      copying the pod without copying the buffer would share them. */
  class Pod {
    const id: PodId
    const uid: string
    const created: Time
    const containers: seq<ContainerSpec>
    var resourceVersion: string
    var deletionTimestamp: Option<Time>
    var phase: Phase
    var reason: string
    var message: string
    var hostIP: string
    var podIP: string
    var startTime: Option<Time>
    var conditions: seq<PodCondition>
    var containerStatuses: array<ContainerStatus>

    function Status(): PodStatus
      reads this, containerStatuses
    {
      PodStatus(phase, reason, message, hostIP, podIP, startTime, conditions, containerStatuses[..])
    }

    function Value(): PodValue
      reads this, containerStatuses
    {
      PodValue(id, uid, created, containers, resourceVersion, deletionTimestamp, Status())
    }

    constructor (v: PodValue)
      ensures Value() == v
      ensures fresh(containerStatuses)
    {
      id, uid, created, containers := v.id, v.uid, v.created, v.containers;
      resourceVersion, deletionTimestamp := v.resourceVersion, v.deletionTimestamp;
      var s := v.status;
      phase, reason, message := s.phase, s.reason, s.message;
      hostIP, podIP, startTime, conditions := s.hostIP, s.podIP, s.startTime, s.conditions;
      var cs := s.containerStatuses;
      containerStatuses := new ContainerStatus[|cs|](i requires 0 <= i < |cs| => cs[i]);
    }

    method DeepCopy() returns (copy: Pod)
      ensures fresh(copy) && fresh(copy.containerStatuses)
      ensures copy.Value() == Value()
    {
      copy := new Pod(Value());
    }

    /** Overwrites the whole status, with a buffer that shares nothing with the source. */
    method SetStatus(s: PodStatus)
      modifies this
      ensures Value() == old(Value()).(status := s)
      ensures fresh(containerStatuses)
    {
      phase, reason, message := s.phase, s.reason, s.message;
      hostIP, podIP, startTime, conditions := s.hostIP, s.podIP, s.startTime, s.conditions;
      var cs := s.containerStatuses;
      containerStatuses := new ContainerStatus[|cs|](i requires 0 <= i < |cs| => cs[i]);
      assert containerStatuses[..] == cs && Status() == s;
    }
  }

  /** What a list of pods looks like now. */
  ghost function Values(pods: seq<Pod>): (vs: seq<PodValue>)
    reads pods, set i | 0 <= i < |pods| :: pods[i].containerStatuses
    ensures |vs| == |pods|
    ensures forall i | 0 <= i < |pods| :: vs[i] == pods[i].Value()
  {
    seq(|pods|, i requires 0 <= i < |pods|
        reads pods, set j | 0 <= j < |pods| :: pods[j].containerStatuses => pods[i].Value())
  }
}
