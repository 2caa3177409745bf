/** Cloud Run services, and the pod statuses the provider writes. */
module CloudRun {
  import opened Kube
  import opened ServiceTranslation

  const SUCCEEDED := "CONDITION_SUCCEEDED"
  const FAILED := "CONDITION_FAILED"
  const RECONCILING := "CONDITION_RECONCILING"
  const PENDING := "CONDITION_PENDING"
  const RUNNING := "Running"

  /** A service as the API reports it: `state` is its terminal condition. */
  datatype Service = Service(
    containers: seq<ServiceContainer>,
    state: string,
    createTime: Time,
    updateTime: Time)

  function PhaseOf(state: string): Phase {
    if state == SUCCEEDED then Phase.Running
    else if state == FAILED then Phase.Failed
    else if state == RECONCILING then Phase.Pending
    else if state == PENDING then Phase.Pending
    else Phase.Running
  }

  function ConditionsOf(state: string, creation: Time, lastUpdate: Time, allReady: bool): seq<PodCondition> {
    if state == RUNNING || state == SUCCEEDED then
      [ PodCondition(PodReady, allReady, if allReady then lastUpdate else creation),
        PodCondition(PodInitialized, true, creation),
        PodCondition(PodScheduled, true, creation) ]
    else []
  }

  /** No container state is ever filled in. */
  function ObservedContainer(c: ServiceContainer): ContainerStatus {
    ContainerStatus(c.name, c.image, c.image, "", true, Some(true), 0, NO_STATE)
  }

  function ObservedStatus(s: Service, hostIP: string): PodStatus {
    PodStatus(
      PhaseOf(s.state), "", "", hostIP, "", Some(s.createTime),
      ConditionsOf(s.state, s.createTime, s.updateTime, true),
      seq(|s.containers|, i requires 0 <= i < |s.containers| => ObservedContainer(s.containers[i])))
  }

  function CreatedContainer(c: ContainerSpec, now: Time): ContainerStatus {
    ContainerStatus(c.name, c.image, "", "", true, None, 0, ContainerState(None, Some(now), None))
  }

  function CreatedStatus(containers: seq<ContainerSpec>, now: Time): PodStatus {
    PodStatus(
      Phase.Running, "", "", "1.2.3.4", "5.6.7.8", Some(now),
      [ PodCondition(PodInitialized, true, ZERO_TIME),
        PodCondition(PodReady, true, ZERO_TIME),
        PodCondition(PodScheduled, true, ZERO_TIME) ],
      seq(|containers|, i requires 0 <= i < |containers| => CreatedContainer(containers[i], now)))
  }

  const REASON_DELETED := "CloudRunProviderPodDeleted"
  const REASON_CONTAINER_DELETED := "CloudRunProviderPodContainerDeleted"
  const MESSAGE_DELETED := "CloudRun provider terminated container upon deletion"

  function DeletedContainer(c: ContainerStatus, now: Time): ContainerStatus {
    c.(ready := false,
       state := ContainerState(None, None, Some(
         Termination(0, REASON_CONTAINER_DELETED, MESSAGE_DELETED, ZERO_TIME, now, ""))))
  }

  function DeletedStatus(s: PodStatus, now: Time): PodStatus {
    s.(phase := Phase.Succeeded,
       reason := REASON_DELETED,
       containerStatuses := seq(|s.containerStatuses|,
         i requires 0 <= i < |s.containerStatuses| => DeletedContainer(s.containerStatuses[i], now)))
  }

  /** The phase is Pending while the service reconciles or waits, Failed if it failed, and Running in
      every other state, known or not. The three conditions are reported, all true, exactly for the
      two up states; readiness dates from the last update, the others from the creation. */
  lemma ConditionsAndPhase(s: Service, hostIP: string)
    ensures
      var st := ObservedStatus(s, hostIP);
      && (st.phase == Phase.Pending <==> s.state in {"CONDITION_RECONCILING", "CONDITION_PENDING"})
      && (st.phase == Phase.Failed <==> s.state == "CONDITION_FAILED")
      && (st.phase == Phase.Running <==>
            s.state !in {"CONDITION_RECONCILING", "CONDITION_PENDING", "CONDITION_FAILED"})
      && st.conditions ==
           (if s.state in {"Running", "CONDITION_SUCCEEDED"} then
              [ PodCondition(PodReady, true, s.updateTime),
                PodCondition(PodInitialized, true, s.createTime),
                PodCondition(PodScheduled, true, s.createTime) ]
            else [])
      && (st.conditions != [] ==> st.phase == Phase.Running)
  {
    assert RUNNING !in {SUCCEEDED, FAILED, RECONCILING, PENDING} && |RUNNING| == 7;
    assert |FAILED| == 16 && |PENDING| == 17 && |SUCCEEDED| == 19 && |RECONCILING| == 21;
  }

  /** Beside phase and conditions an observed status has the node's address, the creation time, and
      per service container its name and image, ready and started; no pod address, texts or states. */
  lemma ObservedFields(s: Service, hostIP: string)
    ensures
      var st := ObservedStatus(s, hostIP);
      && st.reason == "" && st.message == "" && st.podIP == ""
      && st.hostIP == hostIP && st.startTime == Some(s.createTime)
      && |st.containerStatuses| == |s.containers|
      && forall i | 0 <= i < |s.containers| ::
           st.containerStatuses[i] == ContainerStatus(
             s.containers[i].name, s.containers[i].image, s.containers[i].image, "",
             true, Some(true), 0, ContainerState(None, None, None))
  {
  }

  /** A created pod is reported up at once: running with fixed addresses, three conditions without a
      time, and per spec container, by name and image, a ready one that has been running since. */
  lemma CreatedPodIsUp(containers: seq<ContainerSpec>, now: Time)
    ensures
      var st := CreatedStatus(containers, now);
      && st.phase == Phase.Running && st.reason == "" && st.message == ""
      && st.hostIP == "1.2.3.4" && st.podIP == "5.6.7.8" && st.startTime == Some(now)
      && st.conditions == [
           PodCondition(PodInitialized, true, ZERO_TIME),
           PodCondition(PodReady, true, ZERO_TIME),
           PodCondition(PodScheduled, true, ZERO_TIME) ]
      && |st.containerStatuses| == |containers|
      && forall i | 0 <= i < |containers| ::
           st.containerStatuses[i] == ContainerStatus(
             containers[i].name, containers[i].image, "", "",
             true, None, 0, ContainerState(None, Some(now), None))
  {
  }

  /** A deleted pod has succeeded, and each of its containers is terminated with exit code 0 at the
      time of the deletion and no longer ready; all else is kept. */
  lemma DeletedPodIsDown(s: PodStatus, now: Time)
    ensures
      var r := DeletedStatus(s, now);
      && r == s.(phase := Phase.Succeeded, reason := "CloudRunProviderPodDeleted",
                 containerStatuses := r.containerStatuses)
      && |r.containerStatuses| == |s.containerStatuses|
      && forall i | 0 <= i < |s.containerStatuses| ::
           r.containerStatuses[i] == s.containerStatuses[i].(
             ready := false,
             state := ContainerState(None, None, Some(Termination(
               0, "CloudRunProviderPodContainerDeleted",
               "CloudRun provider terminated container upon deletion", ZERO_TIME, now, ""))))
  {
  }

  /** Refreshing a pod from the service made for it gives one container status per container, in
      order and with the same images; the names are gone. */
  lemma CreateThenRefresh(containers: seq<ContainerSpec>, s: Service, hostIP: string)
    requires s.containers == Template(containers)
    ensures
      var cs := ObservedStatus(s, hostIP).containerStatuses;
      && |cs| == |containers|
      && forall i | 0 <= i < |cs| ::
           && cs[i].image == containers[i].image == cs[i].imageID
           && cs[i].name == ""
           && cs[i].state == NO_STATE
  {
  }
}
