/** The provider object and its Cloud Run client. Random draws are arbitrary; clock readings and
    the order in which a Go map is iterated come in as parameters. */
module Provider {
  import opened Kube
  import opened Sequences
  import opened TrackerSpec
  import opened CloudRun
  import opened ServiceTranslation
  import opened PodKeys
  import S = Stats
  import M = Metrics
  import World

  /** Services are addressed by name alone. */
  class ClientManager {
    var services: map<string, Service>

    constructor ()
      ensures services == map[]
    {
      services := map[];
    }

    /** None stands for the nil dereference after the client's error. */
    method GetService(name: string) returns (s: Option<Service>)
      ensures s == if name in services then Some(services[name]) else None
    {
      s := if name in services then Some(services[name]) else None;
    }

    method DeleteService(name: string)
      modifies this
      ensures services == old(services) - {name}
    {
      services := services - {name};
    }

    method TranslatePorts(c: ContainerSpec) returns (portList: seq<ContainerPort>)
      ensures portList == c.ports
    {
      portList := [];
      for i := 0 to |c.ports|
        invariant portList == c.ports[..i]
      {
        portList := portList + [ContainerPort(c.ports[i].name, c.ports[i].containerPort)];
      }
    }

    method TranslateEnv(c: ContainerSpec) returns (envvars: seq<EnvVar>)
      ensures envvars == c.env
    {
      envvars := [];
      for i := 0 to |c.env|
        invariant envvars == c.env[..i]
      {
        envvars := envvars + [EnvVar(c.env[i].name, c.env[i].value)];
      }
    }

    /** Fails, where the program dereferences a nil operation, when the name is taken. `remote` is
        what Cloud Run reports about the new service besides its template. */
    method CreateService(pod: Pod, remote: Service) returns (ok: bool)
      modifies this
      ensures ok <==> pod.id.name !in old(services)
      ensures !ok ==> services == old(services)
      ensures ok ==> services == old(services)[pod.id.name := remote.(containers := Template(pod.containers))]
    {
      var serviceContainers: seq<ServiceContainer> := [];
      for i := 0 to |pod.containers|
        invariant services == old(services)
        invariant serviceContainers == Template(pod.containers)[..i]
      {
        var c := pod.containers[i];
        var portList := TranslatePorts(c);
        var cpu := Decimal(c.cpuLimit);
        var memory := Decimal(Quotient(Quotient(c.memoryLimit, 1024), 1024)) + "Mi";
        var envvars := TranslateEnv(c);
        serviceContainers := serviceContainers + [ServiceContainer("", c.image, portList, cpu, memory, envvars)];
      }
      assert serviceContainers == Template(pod.containers);
      if pod.id.name in services {
        return false;
      }
      services := services[pod.id.name := remote.(containers := serviceContainers)];
      ok := true;
    }
  }

  class CloudRunProvider {
    const nodeName: string
    const internalIP: string
    const crclient: ClientManager
    var pods: map<string, Pod>

    constructor (nodeName: string, internalIP: string, crclient: ClientManager)
      ensures this.nodeName == nodeName && this.internalIP == internalIP && this.crclient == crclient
      ensures pods == map[]
    {
      this.nodeName, this.internalIP, this.crclient := nodeName, internalIP, crclient;
      pods := map[];
    }

    function KnownIds(): map<string, PodId>
      reads this
    {
      map k | k in pods :: pods[k].id
    }

    // ---------- Keys ----------

    static method RandStringRunes(n: nat) returns (s: string)
      ensures |s| == n && forall c <- s :: c in "abcdefghijklmnopqrstuvwxyz1234567890"
    {
      var b := new char[n](_ => 'a');
      for i := 0 to n
        invariant forall k | 0 <= k < i :: b[k] in LETTERS
      {
        var k: nat :| k < |LETTERS|;
        b[i] := LETTERS[k];
      }
      s := b[..];
    }

    static method BuildKey(pod: Pod) returns (key: Option<string>, ghost suffix: string)
      ensures key.None? <==> pod.id.namespace == "" || pod.id.name == ""
      ensures key.Some? ==>
        && IsSuffix(suffix) && |suffix| == 6 && key.value == Key(pod.id, suffix)
        && key.value == pod.id.namespace + "-" + pod.id.name + "-" + suffix
    {
      if pod.id.namespace == "" {
        return None, "";
      }
      if pod.id.name == "" {
        return None, "";
      }
      var drawn := RandStringRunes(SUFFIX_LENGTH);
      return Some(pod.id.namespace + "-" + pod.id.name + "-" + drawn), drawn;
    }

    /** Under a key with a fresh suffix, so that an earlier entry for the pod usually stays. */
    method UpdatePod(pod: Pod) returns (ok: bool, ghost d: Draw)
      modifies this
      ensures ok <==> pod.id.namespace != "" && pod.id.name != ""
      ensures d.id == pod.id && (ok ==> IsSuffix(d.suffix))
      ensures pods == if ok then old(pods)[Key(pod.id, d.suffix) := pod] else old(pods)
      ensures KnownIds() == Remembered(old(KnownIds()), d)
    {
      var key;
      ghost var suffix;
      key, suffix := BuildKey(pod);
      d := Draw(pod.id, suffix);
      if key.None? {
        return false, d;
      }
      pods := pods[key.value := pod];
      ok := true;
    }

    // ---------- Status writers ----------

    method CreatePod(pod: Pod, now: Time, remote: Service) returns (ok: bool)
      modifies pod, crclient
      ensures ok <==> pod.id.name !in old(crclient.services)
      ensures !ok ==> pod.Value() == old(pod.Value()) && crclient.services == old(crclient.services)
      ensures ok ==>
        && pod.Value() == old(pod.Value()).(status := CreatedStatus(pod.containers, now))
        && crclient.services == old(crclient.services)[pod.id.name := remote.(containers := Template(pod.containers))]
    {
      ok := crclient.CreateService(pod, remote);
      if !ok {
        return;
      }
      var statuses: seq<ContainerStatus> := [];
      for i := 0 to |pod.containers|
        invariant statuses == CreatedStatus(pod.containers, now).containerStatuses[..i]
      {
        var c := pod.containers[i];
        statuses := statuses
          + [ContainerStatus(c.name, c.image, "", "", true, None, 0, ContainerState(None, Some(now), None))];
      }
      pod.SetStatus(PodStatus(
        Phase.Running, "", "", "1.2.3.4", "5.6.7.8", Some(now),
        [ PodCondition(PodInitialized, true, ZERO_TIME),
          PodCondition(PodReady, true, ZERO_TIME),
          PodCondition(PodScheduled, true, ZERO_TIME) ],
        statuses));
    }

    method DeletePod(pod: Pod, now: Time)
      modifies pod, pod.containerStatuses, crclient
      ensures crclient.services == old(crclient.services) - {pod.id.name}
      ensures pod.containerStatuses == old(pod.containerStatuses)
      ensures pod.Value() == old(pod.Value()).(status := DeletedStatus(old(pod.Status()), now))
    {
      crclient.DeleteService(pod.id.name);
      pod.phase := Phase.Succeeded;
      pod.reason := REASON_DELETED;
      MarkDeleted(pod, now);
    }

    method MarkDeleted(pod: Pod, now: Time)
      modifies pod.containerStatuses
      ensures pod.Status() == old(pod.Status()).(containerStatuses :=
        DeletedStatus(old(pod.Status()), now).containerStatuses)
    {
      var cs := pod.containerStatuses;
      for i := 0 to cs.Length
        invariant forall k | 0 <= k < i :: cs[k] == DeletedContainer(old(cs[k]), now)
        invariant forall k | i <= k < cs.Length :: cs[k] == old(cs[k])
      {
        cs[i] := cs[i].(ready := false);
        cs[i] := cs[i].(state := ContainerState(None, None, Some(
          Termination(0, REASON_CONTAINER_DELETED, MESSAGE_DELETED, ZERO_TIME, now, ""))));
      }
      assert cs[..] == DeletedStatus(old(pod.Status()), now).containerStatuses;
    }

    /** The namespace plays no part; a missing service is a crash, never a not-found answer. */
    method GetPodStatus(namespace: string, name: string) returns (status: Option<PodStatus>)
      ensures status == if name in crclient.services
        then Some(ObservedStatus(crclient.services[name], internalIP)) else None
    {
      var live := crclient.GetService(name);
      if live.None? {
        return None;
      }
      var list := live.value.containers;
      var statuses: seq<ContainerStatus> := [];
      for i := 0 to |list|
        invariant statuses == ObservedStatus(live.value, internalIP).containerStatuses[..i]
      {
        statuses := statuses
          + [ContainerStatus(list[i].name, list[i].image, list[i].image, "", true, Some(true), 0, NO_STATE)];
      }
      assert statuses == ObservedStatus(live.value, internalIP).containerStatuses;
      status := Some(PodStatus(
        PhaseOf(live.value.state), "", "", internalIP, "", Some(live.value.createTime),
        ConditionsOf(live.value.state, live.value.createTime, live.value.updateTime, true),
        statuses));
    }

    // ---------- Listing and cleanup ----------

    method GetPods(order: seq<string>) returns (list: seq<Pod>)
      requires Enumerates(order, pods.Keys)
      ensures |list| == |order|
      ensures forall i | 0 <= i < |order| :: order[i] in pods && list[i] == pods[order[i]]
    {
      list := [];
      for i := 0 to |order|
        invariant |list| == i
        invariant forall k | 0 <= k < i :: order[k] in pods && list[k] == pods[order[k]]
      {
        assert order[i] in order;
        list := list + [pods[order[i]]];
      }
    }

    method ListActivePods(order: seq<string>) returns (ids: seq<PodId>)
      requires Enumerates(order, pods.Keys)
      ensures ids == World.Active(KnownIds(), order)
      ensures |ids| == |order| && forall i | 0 <= i < |order| :: order[i] in pods && ids[i] == pods[order[i]].id
    {
      var providerPods := GetPods(order);
      ids := [];
      for i := 0 to |providerPods|
        invariant |ids| == i
        invariant forall k | 0 <= k < i :: ids[k] == providerPods[k].id
      {
        ids := ids + [PodId(providerPods[i].id.namespace, providerPods[i].id.name)];
      }
    }

    method CleanupPod(ns: string, name: string) returns (result: CallResult)
      modifies crclient
      ensures crclient.services == old(crclient.services) - {name}
      ensures result == Done
    {
      crclient.DeleteService(name);
      result := Done;
    }

    /** The cleanup pass as it acts on Cloud Run: one call per dangling pod. */
    method CleanUp(dangling: seq<PodId>)
      modifies crclient
      ensures crclient.services == old(crclient.services) - World.Names(dangling)
      ensures forall name :: name in crclient.services <==>
        name in old(crclient.services) && forall id <- dangling :: id.name != name
    {
      for i := 0 to |dangling|
        invariant crclient.services == old(crclient.services) - World.Names(dangling[..i])
      {
        assert dangling[..i + 1] == dangling[..i] + [dangling[i]];
        var _ := CleanupPod(dangling[i].namespace, dangling[i].name);
      }
      assert dangling[..|dangling|] == dangling;
    }

    // ---------- Stats ----------

    static method RandUint32() returns (r: nat)
      ensures r < S.TWO_32
    {
      r :| r < S.TWO_32;
    }

    static method StatsOfPod(pod: Pod) returns (pss: S.PodStats)
      ensures pss.id == pod.id && pss.uid == pod.uid && pss.startTime == pod.created
      ensures |pss.containers| == |pod.containers|
      ensures forall i | 0 <= i < |pod.containers| ::
        pss.containers[i].name == pod.containers[i].name && pss.containers[i].startTime == pod.created
      ensures forall c <- pss.containers :: c.usageNanoCores < 0x1_0000_0000 && c.usageBytes < 0x1_0000_0000
      ensures S.Draws(S.Cores(pss.containers)) && S.Draws(S.Bytes(pss.containers))
      ensures pss.usageNanoCores == S.WrappedSum(S.Cores(pss.containers))
      ensures pss.usageBytes == S.WrappedSum(S.Bytes(pss.containers))
    {
      var totalCores, totalBytes: nat := 0, 0;
      var list: seq<S.ContainerStats> := [];
      for i := 0 to |pod.containers|
        invariant |list| == i
        invariant forall k | 0 <= k < i ::
          list[k].name == pod.containers[k].name && list[k].startTime == pod.created
        invariant S.Draws(S.Cores(list)) && S.Draws(S.Bytes(list))
        invariant totalCores == S.WrappedSum(S.Cores(list)) < S.TWO_64
        invariant totalBytes == S.WrappedSum(S.Bytes(list)) < S.TWO_64
      {
        var cores := RandUint32();
        var bytes := RandUint32();
        totalCores := (totalCores + cores) % S.TWO_64;
        totalBytes := (totalBytes + bytes) % S.TWO_64;
        ghost var before := list;
        list := list + [S.ContainerStats(pod.containers[i].name, pod.created, cores, bytes)];
        assert S.Cores(list)[..i] == S.Cores(before) && S.Bytes(list)[..i] == S.Bytes(before);
      }
      forall c | c in list
        ensures c.usageNanoCores < 0x1_0000_0000 && c.usageBytes < 0x1_0000_0000
      {
        var i :| 0 <= i < |list| && list[i] == c;
        assert S.Cores(list)[i] == c.usageNanoCores && S.Bytes(list)[i] == c.usageBytes;
      }
      pss := S.PodStats(pod.id, pod.uid, pod.created, list, totalCores, totalBytes);
    }

    /** One entry per pod of the map; the totals are the sums of the published values as long as a
        pod has at most 2^32 + 1 containers. */
    method GetStatsSummary(order: seq<string>) returns (summary: seq<S.PodStats>)
      requires Enumerates(order, pods.Keys)
      ensures |summary| == |pods|
      ensures |summary| == |order|
      ensures forall i | 0 <= i < |order| :: order[i] in pods && SummaryOf(pods[order[i]], summary[i])
    {
      summary := [];
      for i := 0 to |order|
        invariant |summary| == i
        invariant forall k | 0 <= k < i :: order[k] in pods && SummaryOf(pods[order[k]], summary[k])
      {
        assert order[i] in order;
        var pss := StatsOfPod(pods[order[i]]);
        if |pods[order[i]].containers| <= 4_294_967_297 {
          S.TotalsAreExactIff(|pss.containers|);
        }
        summary := summary + [pss];
      }
      EnumerationSize(order, pods.Keys);
    }

    static ghost predicate SummaryOf(pod: Pod, pss: S.PodStats) {
      && pss.id == pod.id && pss.uid == pod.uid && pss.startTime == pod.created
      && |pss.containers| == |pod.containers|
      && (forall i | 0 <= i < |pod.containers| ::
            pss.containers[i].name == pod.containers[i].name && pss.containers[i].startTime == pod.created)
      && (forall c <- pss.containers :: c.usageNanoCores < 0x1_0000_0000 && c.usageBytes < 0x1_0000_0000)
      && pss.usageNanoCores == S.WrappedSum(S.Cores(pss.containers))
      && pss.usageBytes == S.WrappedSum(S.Bytes(pss.containers))
      && (|pod.containers| <= 4_294_967_297 ==>
            && pss.usageNanoCores == S.Sum(S.Cores(pss.containers))
            && pss.usageBytes == S.Sum(S.Bytes(pss.containers)))
    }

    // ---------- Metrics ----------

    method GenerateMockMetrics(metricsMap: M.MetricsMap, resourceType: string, labels: seq<M.Label>)
      returns (r: M.MetricsMap)
      ensures r == M.Generated(metricsMap, resourceType, labels)
    {
      var cpuName := resourceType + M.CPU_SUFFIX;
      var memoryName := resourceType + M.MEMORY_SUFFIX;
      var newCpu := M.Metric(labels, M.Counter(M.DUMMY_VALUE));
      var newMemory := M.Metric(labels, M.Gauge(M.DUMMY_VALUE));
      assert forall x: M.Metric :: [] + [x] == [x];
      r := metricsMap;
      if cpuName in r {
        r := r[cpuName := r[cpuName] + [newCpu]];
      } else {
        r := r[cpuName := [newCpu]];
      }
      if memoryName in r {
        r := r[memoryName := r[memoryName] + [newMemory]];
      } else {
        r := r[memoryName := [newMemory]];
      }
    }

    function MeteredPods(order: seq<string>): (r: seq<M.Metered>)
      requires forall k <- order :: k in pods
      reads this
      ensures |r| == |order|
    {
      seq(|order|, i requires 0 <= i < |order| && (forall k <- order :: k in pods) reads this =>
        assert order[i] in order; M.Metered(pods[order[i]].id.name, pods[order[i]].containers))
    }

    /** What is metered are the pods of the map, by name and with their containers, in iteration order. */
    lemma MeteredByName(order: seq<string>, i: nat)
      requires i < |order| && forall k <- order :: k in pods
      ensures order[i] in pods
      ensures MeteredPods(order)[i].name == pods[order[i]].id.name
      ensures MeteredPods(order)[i].containers == pods[order[i]].containers
    {
      assert order[i] in order;
    }

    method CollectPod(metricsMap: M.MetricsMap, pod: Pod) returns (r: M.MetricsMap)
      ensures r == M.WithPod(metricsMap, nodeName, M.Metered(pod.id.name, pod.containers))
    {
      ghost var p := M.Metered(pod.id.name, pod.containers);
      r := GenerateMockMetrics(metricsMap, M.POD, M.PodLabels(nodeName, pod.id.name));
      ghost var base := r;
      for j := 0 to |pod.containers|
        invariant r == M.WithContainers(base, nodeName, p, j)
      {
        var labels := M.ContainerLabels(nodeName, M.Metered(pod.id.name, pod.containers));
        r := GenerateMockMetrics(r, M.CONTAINER, labels);
      }
    }

    method CollectMetrics(order: seq<string>) returns (metricsMap: M.MetricsMap)
      requires Enumerates(order, pods.Keys)
      ensures metricsMap == M.Collected(nodeName, MeteredPods(order), |order|)
    {
      ghost var metered := MeteredPods(order);
      metricsMap := GenerateMockMetrics(map[], M.NODE, M.NodeLabels(nodeName));
      for i := 0 to |order|
        invariant metricsMap == M.Collected(nodeName, metered, i)
      {
        MeteredByName(order, i);
        metricsMap := CollectPod(metricsMap, pods[order[i]]);
      }
    }

    /** Every family of the collected map once, in any order. */
    method GetMetricsResource(order: seq<string>) returns (res: seq<M.MetricFamily>)
      requires Enumerates(order, pods.Keys)
      ensures Distinct(FamilyNames(res))
      ensures forall name :: name in FamilyNames(res) <==> name in M.Collected(nodeName, MeteredPods(order), |order|)
      ensures forall f <- res ::
        && f.name in M.Collected(nodeName, MeteredPods(order), |order|)
        && f.metrics == M.Collected(nodeName, MeteredPods(order), |order|)[f.name]
        && M.WellTyped(f)
      ensures M.TotalOver(M.Collected(nodeName, MeteredPods(order), |order|), FamilyNames(res))
        == 2 * (1 + |order| + M.ContainerCount(MeteredPods(order), |order|))
    {
      var m := CollectMetrics(order);
      res := [];
      var left := m.Keys;
      while left != {}
        invariant left <= m.Keys
        invariant Distinct(FamilyNames(res))
        invariant forall name :: name in FamilyNames(res) <==> name in m.Keys - left
        invariant forall f <- res :: f.name in m && f.metrics == m[f.name] && M.WellTyped(f)
        decreases left
      {
        var name :| name in left;
        M.CollectedIsWellTyped(nodeName, MeteredPods(order), name);
        ghost var before := FamilyNames(res);
        res := res + [M.MetricFamily(name, M.TypeOf(name), m[name])];
        assert FamilyNames(res) == before + [name] && name !in before;
        left := left - {name};
      }
      M.TotalIsTwicePerResource(nodeName, MeteredPods(order), FamilyNames(res));
    }

    static function FamilyNames(fs: seq<M.MetricFamily>): (r: seq<string>)
      ensures |r| == |fs|
    {
      seq(|fs|, i requires 0 <= i < |fs| => fs[i].name)
    }
  }
}
