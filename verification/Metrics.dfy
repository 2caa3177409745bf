/** The resource metrics: typed families with one metric per node, pod and container. */
module Metrics {
  import opened Kube
  import opened Sequences

  const CPU_SUFFIX := "_cpu_usage_seconds_total"
  const MEMORY_SUFFIX := "_memory_working_set_bytes"
  const NODE := "node"
  const POD := "pod"
  const CONTAINER := "container"

  datatype Label = Label(name: string, value: string)
  datatype Value = Counter(value: int) | Gauge(value: int)
  datatype Metric = Metric(labels: seq<Label>, value: Value)
  datatype MetricType = COUNTER | GAUGE
  datatype MetricFamily = MetricFamily(name: string, kind: Option<MetricType>, metrics: seq<Metric>)

  type MetricsMap = map<string, seq<Metric>>

  /** What the metrics need to know of a pod. */
  datatype Metered = Metered(name: string, containers: seq<ContainerSpec>)

  const DUMMY_VALUE := 100

  function In(m: MetricsMap, name: string): seq<Metric> {
    if name in m then m[name] else []
  }

  function Generated(m: MetricsMap, resource: string, labels: seq<Label>): MetricsMap {
    var cpu, memory := resource + CPU_SUFFIX, resource + MEMORY_SUFFIX;
    var m' := m[cpu := In(m, cpu) + [Metric(labels, Counter(DUMMY_VALUE))]];
    m'[memory := In(m', memory) + [Metric(labels, Gauge(DUMMY_VALUE))]]
  }

  predicate HasSuffix(s: string, suffix: string) {
    |suffix| <= |s| && s[|s| - |suffix|..] == suffix
  }

  function TypeOf(name: string): Option<MetricType> {
    if HasSuffix(name, CPU_SUFFIX) then Some(COUNTER)
    else if HasSuffix(name, MEMORY_SUFFIX) then Some(GAUGE)
    else None
  }

  function NodeLabels(node: string): seq<Label> {
    [Label("NodeName", node)]
  }

  function PodLabels(node: string, pod: string): seq<Label> {
    [Label("NodeName", node), Label("PodName", pod)]
  }

  /** The container label points at the variable the inner loop reuses for every container, so once
      the loop is over all containers of a pod carry the name of the last one. */
  function ContainerLabels(node: string, p: Metered): seq<Label>
    requires p.containers != []
  {
    [Label("NodeName", node), Label("PodName", p.name),
     Label("containerName", p.containers[|p.containers| - 1].name)]
  }

  /** So, names being distinct, the labels are right exactly for pods of one container. */
  lemma ContainerLabelsNameTheLast(node: string, p: Metered)
    requires p.containers != []
    requires forall i, j | 0 <= i < j < |p.containers| :: p.containers[i].name != p.containers[j].name
    ensures (forall i | 0 <= i < |p.containers| ::
        ContainerLabels(node, p)[2] == Label("containerName", p.containers[i].name))
      <==> |p.containers| == 1
  {
    if |p.containers| > 1 {
      assert ContainerLabels(node, p)[2].value != p.containers[0].name;
    }
  }

  function WithContainers(m: MetricsMap, node: string, p: Metered, n: nat): MetricsMap
    requires n <= |p.containers|
  {
    if n == 0 then m else Generated(WithContainers(m, node, p, n - 1), CONTAINER, ContainerLabels(node, p))
  }

  function WithPod(m: MetricsMap, node: string, p: Metered): MetricsMap {
    WithContainers(Generated(m, POD, PodLabels(node, p.name)), node, p, |p.containers|)
  }

  function Collected(node: string, pods: seq<Metered>, n: nat): MetricsMap
    requires n <= |pods|
  {
    if n == 0 then Generated(map[], NODE, NodeLabels(node))
    else WithPod(Collected(node, pods, n - 1), node, pods[n - 1])
  }

  function ContainerCount(pods: seq<Metered>, n: nat): nat
    requires n <= |pods|
  {
    if n == 0 then 0 else ContainerCount(pods, n - 1) + |pods[n - 1].containers|
  }

  function Name(resource: string, k: MetricType): string {
    resource + if k == COUNTER then CPU_SUFFIX else MEMORY_SUFFIX
  }

  // ---------- Names ----------

  lemma SixDistinctNames()
    ensures forall k, l :: Name(NODE, k) != Name(POD, l)
    ensures forall k, l :: Name(NODE, k) != Name(CONTAINER, l)
    ensures forall k, l :: Name(POD, k) != Name(CONTAINER, l)
    ensures forall r: string, k, l :: k != l ==> Name(r, k) != Name(r, l)
  {
    forall k
      ensures Name(NODE, k)[0] == 'n' && Name(POD, k)[0] == 'p' && Name(CONTAINER, k)[0] == 'c'
    {
    }
    forall r: string
      ensures Name(r, COUNTER) != Name(r, GAUGE)
    {
      assert Name(r, COUNTER)[|Name(r, COUNTER)| - 1] == 'l';
      assert Name(r, GAUGE)[|Name(r, GAUGE)| - 1] == 's';
    }
  }

  lemma TypesByName(resource: string, k: MetricType)
    ensures TypeOf(Name(resource, k)) == Some(k)
  {
    var n := Name(resource, k);
    if k == GAUGE {
      assert n[|n| - 1] == 's' && CPU_SUFFIX[|CPU_SUFFIX| - 1] == 'l';
      assert |CPU_SUFFIX| <= |n| ==> n[|n| - |CPU_SUFFIX|..][|CPU_SUFFIX| - 1] == n[|n| - 1];
      assert n[|n| - |MEMORY_SUFFIX|..] == MEMORY_SUFFIX;
    } else {
      assert n[|n| - |CPU_SUFFIX|..] == CPU_SUFFIX;
    }
  }

  // ---------- Conservation ----------

  predicate Kinded(m: Metric, k: MetricType) {
    if k == COUNTER then m.value.Counter? else m.value.Gauge?
  }

  /** The two families of a resource hold `count` metrics each, of their own kind. */
  ghost predicate Holds(m: MetricsMap, resource: string, count: nat) {
    forall k ::
      && |In(m, Name(resource, k))| == count
      && (Name(resource, k) in m <==> count > 0)
      && forall x <- In(m, Name(resource, k)) :: Kinded(x, k)
  }

  ghost predicate OnlySixNames(m: MetricsMap) {
    forall name <- m :: exists k :: name == Name(NODE, k) || name == Name(POD, k) || name == Name(CONTAINER, k)
  }

  ghost predicate Balanced(m: MetricsMap, nodes: nat, pods: nat, containers: nat) {
    && Holds(m, NODE, nodes) && Holds(m, POD, pods) && Holds(m, CONTAINER, containers)
    && OnlySixNames(m)
  }

  lemma GeneratedAddsOne(m: MetricsMap, resource: string, labels: seq<Label>, count: nat)
    requires Holds(m, resource, count)
    ensures Holds(Generated(m, resource, labels), resource, count + 1)
  {
    SixDistinctNames();
    assert resource + CPU_SUFFIX == Name(resource, COUNTER) && resource + MEMORY_SUFFIX == Name(resource, GAUGE);
    var after := Generated(m, resource, labels);
    forall k
      ensures In(after, Name(resource, k)) == In(m, Name(resource, k))
        + [Metric(labels, if k == COUNTER then Counter(DUMMY_VALUE) else Gauge(DUMMY_VALUE))]
    {
    }
  }

  lemma GeneratedKeepsOthers(m: MetricsMap, resource: string, labels: seq<Label>, other: string, count: nat)
    requires Holds(m, other, count)
    requires forall k, l :: Name(resource, k) != Name(other, l)
    ensures Holds(Generated(m, resource, labels), other, count)
  {
    assert resource + CPU_SUFFIX == Name(resource, COUNTER) && resource + MEMORY_SUFFIX == Name(resource, GAUGE);
    var after := Generated(m, resource, labels);
    forall k
      ensures In(after, Name(other, k)) == In(m, Name(other, k))
      ensures Name(other, k) in after <==> Name(other, k) in m
    {
    }
  }

  lemma GeneratedNames(m: MetricsMap, resource: string, labels: seq<Label>)
    requires OnlySixNames(m) && resource in {NODE, POD, CONTAINER}
    ensures OnlySixNames(Generated(m, resource, labels))
  {
    assert resource + CPU_SUFFIX == Name(resource, COUNTER) && resource + MEMORY_SUFFIX == Name(resource, GAUGE);
  }

  lemma ContainerMetricBalances(m: MetricsMap, labels: seq<Label>, nodes: nat, pods: nat, containers: nat)
    requires Balanced(m, nodes, pods, containers)
    ensures Balanced(Generated(m, CONTAINER, labels), nodes, pods, containers + 1)
  {
    SixDistinctNames();
    GeneratedAddsOne(m, CONTAINER, labels, containers);
    GeneratedKeepsOthers(m, CONTAINER, labels, NODE, nodes);
    GeneratedKeepsOthers(m, CONTAINER, labels, POD, pods);
    GeneratedNames(m, CONTAINER, labels);
  }

  lemma PodMetricBalances(m: MetricsMap, labels: seq<Label>, nodes: nat, pods: nat, containers: nat)
    requires Balanced(m, nodes, pods, containers)
    ensures Balanced(Generated(m, POD, labels), nodes, pods + 1, containers)
  {
    SixDistinctNames();
    GeneratedAddsOne(m, POD, labels, pods);
    GeneratedKeepsOthers(m, POD, labels, NODE, nodes);
    GeneratedKeepsOthers(m, POD, labels, CONTAINER, containers);
    GeneratedNames(m, POD, labels);
  }

  lemma {:induction false} ContainersBalance(m: MetricsMap, node: string, p: Metered, n: nat,
                                             nodes: nat, pods: nat, containers: nat)
    requires Balanced(m, nodes, pods, containers) && n <= |p.containers|
    ensures Balanced(WithContainers(m, node, p, n), nodes, pods, containers + n)
  {
    if n > 0 {
      ContainersBalance(m, node, p, n - 1, nodes, pods, containers);
      ContainerMetricBalances(WithContainers(m, node, p, n - 1), ContainerLabels(node, p),
                              nodes, pods, containers + n - 1);
    }
  }

  lemma PodBalances(m: MetricsMap, node: string, p: Metered, nodes: nat, pods: nat, containers: nat)
    requires Balanced(m, nodes, pods, containers)
    ensures Balanced(WithPod(m, node, p), nodes, pods + 1, containers + |p.containers|)
  {
    var labels := PodLabels(node, p.name);
    PodMetricBalances(m, labels, nodes, pods, containers);
    ContainersBalance(Generated(m, POD, labels), node, p, |p.containers|, nodes, pods + 1, containers);
  }

  /** For any pods and containers: the node families hold one metric each, the pod families one per
      pod, the container families one per container of all pods, and no other family exists. */
  lemma {:induction false} MetricsAreConserved(node: string, pods: seq<Metered>, n: nat)
    requires n <= |pods|
    ensures Balanced(Collected(node, pods, n), 1, n, ContainerCount(pods, n))
  {
    if n > 0 {
      MetricsAreConserved(node, pods, n - 1);
      PodBalances(Collected(node, pods, n - 1), node, pods[n - 1], 1, n - 1, ContainerCount(pods, n - 1));
    } else {
      var empty: MetricsMap := map[];
      SixDistinctNames();
      assert Balanced(empty, 0, 0, 0);
      GeneratedAddsOne(empty, NODE, NodeLabels(node), 0);
      GeneratedKeepsOthers(empty, NODE, NodeLabels(node), POD, 0);
      GeneratedKeepsOthers(empty, NODE, NodeLabels(node), CONTAINER, 0);
      GeneratedNames(empty, NODE, NodeLabels(node));
    }
  }

  // ---------- Contents ----------

  lemma NamesSpelledOut(r: string, k: MetricType)
    ensures NODE == "node" && POD == "pod" && CONTAINER == "container"
    ensures Name(r, k) == r + if k == COUNTER then "_cpu_usage_seconds_total" else "_memory_working_set_bytes"
  {
  }

  function Dummy(k: MetricType): Value {
    if k == COUNTER then Counter(100) else Gauge(100)
  }

  /** One metric per pod, naming the node and the pod. */
  function PodMetrics(node: string, pods: seq<Metered>, n: nat, k: MetricType): seq<Metric>
    requires n <= |pods|
  {
    if n == 0 then []
    else
      PodMetrics(node, pods, n - 1, k)
      + [Metric([Label("NodeName", node), Label("PodName", pods[n - 1].name)], Dummy(k))]
  }

  /** One metric for each of the first `n` containers of a pod, naming the node, the pod and the pod's
      last container. */
  function OwnMetrics(node: string, p: Metered, n: nat, k: MetricType): seq<Metric>
    requires n <= |p.containers|
  {
    if n == 0 then []
    else
      OwnMetrics(node, p, n - 1, k)
      + [Metric([Label("NodeName", node), Label("PodName", p.name),
                 Label("containerName", p.containers[|p.containers| - 1].name)], Dummy(k))]
  }

  function ContainerMetrics(node: string, pods: seq<Metered>, n: nat, k: MetricType): seq<Metric>
    requires n <= |pods|
  {
    if n == 0 then []
    else ContainerMetrics(node, pods, n - 1, k) + OwnMetrics(node, pods[n - 1], |pods[n - 1].containers|, k)
  }

  lemma GeneratedAppends(m: MetricsMap, resource: string, labels: seq<Label>, r: string, k: MetricType)
    requires resource in {NODE, POD, CONTAINER} && r in {NODE, POD, CONTAINER}
    ensures In(Generated(m, resource, labels), Name(r, k)) ==
      if r == resource then In(m, Name(r, k)) + [Metric(labels, Dummy(k))] else In(m, Name(r, k))
  {
    SixDistinctNames();
    assert resource + CPU_SUFFIX == Name(resource, COUNTER) && resource + MEMORY_SUFFIX == Name(resource, GAUGE);
  }

  /** From `m` on the first `n` containers of a pod have been added. */
  ghost predicate Grew(m: MetricsMap, after: MetricsMap, node: string, p: Metered, n: nat, k: MetricType)
    requires n <= |p.containers|
  {
    && In(after, Name(NODE, k)) == In(m, Name(NODE, k))
    && In(after, Name(POD, k)) == In(m, Name(POD, k))
    && In(after, Name(CONTAINER, k)) == In(m, Name(CONTAINER, k)) + OwnMetrics(node, p, n, k)
  }

  lemma OneContainerMore(m: MetricsMap, before: MetricsMap, node: string, p: Metered, n: nat, k: MetricType)
    requires 0 < n <= |p.containers| && Grew(m, before, node, p, n - 1, k)
    ensures Grew(m, Generated(before, CONTAINER, ContainerLabels(node, p)), node, p, n, k)
  {
    var labels := ContainerLabels(node, p);
    GeneratedAppends(before, CONTAINER, labels, NODE, k);
    GeneratedAppends(before, CONTAINER, labels, POD, k);
    GeneratedAppends(before, CONTAINER, labels, CONTAINER, k);
    AppendIsAssociative(In(m, Name(CONTAINER, k)), OwnMetrics(node, p, n - 1, k), [Metric(labels, Dummy(k))]);
  }

  lemma {:induction false} ContainersAppend(m: MetricsMap, node: string, p: Metered, n: nat, k: MetricType)
    requires n <= |p.containers|
    ensures Grew(m, WithContainers(m, node, p, n), node, p, n, k)
  {
    if n > 0 {
      ContainersAppend(m, node, p, n - 1, k);
      OneContainerMore(m, WithContainers(m, node, p, n - 1), node, p, n, k);
    }
  }

  lemma PodAppends(m: MetricsMap, node: string, p: Metered, k: MetricType)
    ensures In(WithPod(m, node, p), Name(NODE, k)) == In(m, Name(NODE, k))
    ensures In(WithPod(m, node, p), Name(POD, k)) ==
      In(m, Name(POD, k)) + [Metric([Label("NodeName", node), Label("PodName", p.name)], Dummy(k))]
    ensures In(WithPod(m, node, p), Name(CONTAINER, k)) ==
      In(m, Name(CONTAINER, k)) + OwnMetrics(node, p, |p.containers|, k)
  {
    var labels := PodLabels(node, p.name);
    GeneratedAppends(m, POD, labels, NODE, k);
    GeneratedAppends(m, POD, labels, POD, k);
    GeneratedAppends(m, POD, labels, CONTAINER, k);
    ContainersAppend(Generated(m, POD, labels), node, p, |p.containers|, k);
  }

  lemma FamiliesStart(node: string, k: MetricType)
    ensures
      var m := Generated(map[], NODE, NodeLabels(node));
      && In(m, Name(NODE, k)) == [Metric([Label("NodeName", node)], Dummy(k))]
      && In(m, Name(POD, k)) == [] && In(m, Name(CONTAINER, k)) == []
  {
    GeneratedAppends(map[], NODE, NodeLabels(node), NODE, k);
    GeneratedAppends(map[], NODE, NodeLabels(node), POD, k);
    GeneratedAppends(map[], NODE, NodeLabels(node), CONTAINER, k);
  }

  /** The families of one type after `n` pods are these. */
  ghost predicate FamiliesAre(m: MetricsMap, node: string, pods: seq<Metered>, n: nat, k: MetricType)
    requires n <= |pods|
  {
    && In(m, Name(NODE, k)) == [Metric([Label("NodeName", node)], Dummy(k))]
    && In(m, Name(POD, k)) == PodMetrics(node, pods, n, k)
    && In(m, Name(CONTAINER, k)) == ContainerMetrics(node, pods, n, k)
  }

  lemma FamiliesGrow(m: MetricsMap, node: string, pods: seq<Metered>, n: nat, k: MetricType)
    requires 0 < n <= |pods| && FamiliesAre(m, node, pods, n - 1, k)
    ensures FamiliesAre(WithPod(m, node, pods[n - 1]), node, pods, n, k)
  {
    PodAppends(m, node, pods[n - 1], k);
  }

  lemma {:induction false} CollectedFamilies(node: string, pods: seq<Metered>, n: nat, k: MetricType)
    requires n <= |pods|
    ensures FamiliesAre(Collected(node, pods, n), node, pods, n, k)
  {
    if n == 0 {
      FamiliesStart(node, k);
    } else {
      CollectedFamilies(node, pods, n - 1, k);
      FamiliesGrow(Collected(node, pods, n - 1), node, pods, n, k);
    }
  }

  lemma {:induction false} PodMetricAt(node: string, pods: seq<Metered>, n: nat, k: MetricType, i: nat)
    requires i < n <= |pods|
    ensures |PodMetrics(node, pods, n, k)| == n
    ensures PodMetrics(node, pods, n, k)[i] ==
      Metric([Label("NodeName", node), Label("PodName", pods[i].name)], Dummy(k))
  {
    if n > 1 {
      PodMetricAt(node, pods, n - 1, k, if i < n - 1 then i else 0);
    }
  }

  lemma {:induction false} OwnMetricAt(node: string, p: Metered, n: nat, k: MetricType)
    requires n <= |p.containers|
    ensures |OwnMetrics(node, p, n, k)| == n
    ensures forall x <- OwnMetrics(node, p, n, k) :: x == Metric(
      [Label("NodeName", node), Label("PodName", p.name),
       Label("containerName", p.containers[|p.containers| - 1].name)], Dummy(k))
  {
    if n > 0 {
      OwnMetricAt(node, p, n - 1, k);
    }
  }

  lemma {:induction false} ContainerMetricsCount(node: string, pods: seq<Metered>, n: nat, k: MetricType)
    requires n <= |pods|
    ensures |ContainerMetrics(node, pods, n, k)| == ContainerCount(pods, n)
  {
    if n > 0 {
      ContainerMetricsCount(node, pods, n - 1, k);
      OwnMetricAt(node, pods[n - 1], |pods[n - 1].containers|, k);
    }
  }

  lemma {:induction false} ContainerMetricAt(node: string, pods: seq<Metered>, n: nat, k: MetricType, i: nat, j: nat)
    requires i < n <= |pods| && j < |pods[i].containers|
    ensures ContainerCount(pods, i) + j < |ContainerMetrics(node, pods, n, k)|
    ensures ContainerMetrics(node, pods, n, k)[ContainerCount(pods, i) + j] == Metric(
      [Label("NodeName", node), Label("PodName", pods[i].name),
       Label("containerName", pods[i].containers[|pods[i].containers| - 1].name)], Dummy(k))
  {
    if i < n - 1 {
      ContainerMetricAt(node, pods, n - 1, k, i, j);
    } else {
      var own := OwnMetrics(node, pods[i], |pods[i].containers|, k);
      ContainerMetricsCount(node, pods, i, k);
      OwnMetricAt(node, pods[i], |pods[i].containers|, k);
      assert own[j] in own && ContainerMetrics(node, pods, n, k)[ContainerCount(pods, i) + j] == own[j];
    }
  }

  /** Of any collected pods, the one metric of a node family names the node. */
  lemma NodeFamily(node: string, pods: seq<Metered>, k: MetricType)
    ensures In(Collected(node, pods, |pods|), Name(NODE, k)) ==
      [Metric([Label("NodeName", node)], if k == COUNTER then Counter(100) else Gauge(100))]
  {
    CollectedFamilies(node, pods, |pods|, k);
  }

  /** The i-th metric of a pod family names the node and the i-th pod, and there is one per pod. */
  lemma PodFamily(node: string, pods: seq<Metered>, k: MetricType, i: nat)
    requires i < |pods|
    ensures
      var metrics := In(Collected(node, pods, |pods|), Name(POD, k));
      && |metrics| == |pods|
      && metrics[i] == Metric([Label("NodeName", node), Label("PodName", pods[i].name)],
                              if k == COUNTER then Counter(100) else Gauge(100))
  {
    CollectedFamilies(node, pods, |pods|, k);
    PodMetricAt(node, pods, |pods|, k, i);
  }

  /** A container family goes through the pods in order, one metric per container; the metric of the
      j-th container of the i-th pod names the node, that pod and the pod's last container. */
  lemma ContainerFamily(node: string, pods: seq<Metered>, k: MetricType, i: nat, j: nat)
    requires i < |pods| && j < |pods[i].containers|
    ensures
      var metrics := In(Collected(node, pods, |pods|), Name(CONTAINER, k));
      && |metrics| == ContainerCount(pods, |pods|)
      && ContainerCount(pods, i) + j < |metrics|
      && metrics[ContainerCount(pods, i) + j] == Metric(
           [Label("NodeName", node), Label("PodName", pods[i].name),
            Label("containerName", pods[i].containers[|pods[i].containers| - 1].name)],
           if k == COUNTER then Counter(100) else Gauge(100))
  {
    CollectedFamilies(node, pods, |pods|, k);
    ContainerMetricsCount(node, pods, |pods|, k);
    ContainerMetricAt(node, pods, |pods|, k, i, j);
  }

  /** Every family has a type, and holds metrics of that type only. */
  ghost predicate WellTyped(f: MetricFamily) {
    f.kind.Some? && forall x <- f.metrics :: Kinded(x, f.kind.value)
  }

  lemma CollectedIsWellTyped(node: string, pods: seq<Metered>, name: string)
    requires name in Collected(node, pods, |pods|)
    ensures WellTyped(MetricFamily(name, TypeOf(name), Collected(node, pods, |pods|)[name]))
  {
    var m := Collected(node, pods, |pods|);
    MetricsAreConserved(node, pods, |pods|);
    var k :| name == Name(NODE, k) || name == Name(POD, k) || name == Name(CONTAINER, k);
    TypesByName(NODE, k);
    TypesByName(POD, k);
    TypesByName(CONTAINER, k);
    assert In(m, name) == m[name];
  }

  // ---------- The total ----------

  function TotalOver(m: MetricsMap, names: seq<string>): nat {
    if names == [] then 0 else |In(m, names[0])| + TotalOver(m, names[1..])
  }

  lemma {:induction false} TotalWithout(m: MetricsMap, names: seq<string>, i: nat)
    requires i < |names|
    ensures TotalOver(m, names) == |In(m, names[i])| + TotalOver(m, Without(names, i))
  {
    var less := Without(names, i);
    if i > 0 {
      TotalWithout(m, names[1..], i - 1);
      assert less[0] == names[0] && less[1..] == Without(names[1..], i - 1);
    } else {
      assert less == names[1..];
    }
  }

  lemma DistinctWithout(names: seq<string>, i: nat)
    requires Distinct(names) && i < |names|
    ensures Distinct(Without(names, i))
    ensures forall name :: name in Without(names, i) <==> name in names && name != names[i]
  {
    assert names == names[..i] + [names[i]] + names[i + 1..];
    assert names[i] !in names[..i] && names[i] !in names[i + 1..];
  }

  /** `a` names every existing family among the distinct names `b`. */
  ghost predicate Covers(m: MetricsMap, a: seq<string>, b: seq<string>) {
    && Distinct(a) && Distinct(b)
    && (forall name :: name in a ==> name in b)
    && (forall name :: name in b && name in m ==> name in a)
  }

  lemma CoversWithoutFirst(m: MetricsMap, a: seq<string>, b: seq<string>, i: nat)
    requires Covers(m, a, b) && b != [] && i < |a| && a[i] == b[0]
    ensures Covers(m, Without(a, i), b[1..])
  {
    assert Without(b, 0) == b[1..];
    DistinctWithout(b, 0);
    DistinctWithout(a, i);
    var rest, tail := Without(a, i), b[1..];
    assert forall name :: name in tail <==> name in b && name != b[0];
    assert forall name :: name in rest <==> name in a && name != a[i];
  }

  lemma CoversWithoutAbsent(m: MetricsMap, a: seq<string>, b: seq<string>)
    requires Covers(m, a, b) && b != [] && b[0] !in a
    ensures Covers(m, a, b[1..]) && In(m, b[0]) == []
  {
    assert Without(b, 0) == b[1..];
    DistinctWithout(b, 0);
    assert b[0] in b;
  }

  /** The total does not depend on the order of the families, nor on families that do not exist. */
  lemma {:induction false} TotalIsOrderFree(m: MetricsMap, a: seq<string>, b: seq<string>)
    requires Covers(m, a, b)
    ensures TotalOver(m, a) == TotalOver(m, b)
    decreases b
  {
    assert a == [] || (a[0] in a && a[0] in b);
    if b != [] {
      if b[0] in a {
        var i :| 0 <= i < |a| && a[i] == b[0];
        TotalWithout(m, a, i);
        CoversWithoutFirst(m, a, b, i);
        TotalIsOrderFree(m, Without(a, i), b[1..]);
      } else {
        CoversWithoutAbsent(m, a, b);
        TotalIsOrderFree(m, a, b[1..]);
      }
    }
  }

  function SixNames(): seq<string> {
    [Name(NODE, COUNTER), Name(NODE, GAUGE), Name(POD, COUNTER), Name(POD, GAUGE),
     Name(CONTAINER, COUNTER), Name(CONTAINER, GAUGE)]
  }

  lemma TotalOfSix(m: MetricsMap, s: seq<string>)
    requires |s| == 6
    ensures TotalOver(m, s) ==
      |In(m, s[0])| + |In(m, s[1])| + |In(m, s[2])| + |In(m, s[3])| + |In(m, s[4])| + |In(m, s[5])|
  {
    forall i | 0 <= i < 6
      ensures TotalOver(m, s[i..]) == |In(m, s[i])| + TotalOver(m, s[i + 1..])
    {
      assert s[i..][0] == s[i] && s[i..][1..] == s[i + 1..];
    }
    assert s[0..] == s && s[6..] == [];
    assert TotalOver(m, s[3..]) == |In(m, s[3])| + |In(m, s[4])| + |In(m, s[5])|;
  }

  lemma OneOfSix(m: MetricsMap, name: string)
    requires OnlySixNames(m) && name in m
    ensures name in SixNames()
  {
    var k :| name == Name(NODE, k) || name == Name(POD, k) || name == Name(CONTAINER, k);
    var s := SixNames();
    assert s[0] in s && s[1] in s && s[2] in s && s[3] in s && s[4] in s && s[5] in s;
    assert k == COUNTER || k == GAUGE;
  }

  lemma SixAreDistinct()
    ensures Distinct(SixNames())
  {
    SixDistinctNames();
    assert COUNTER != GAUGE;
  }

  /** In whatever order the families come out, they hold two metrics for the node, two per pod and
      two per container. */
  lemma TotalIsTwicePerResource(node: string, pods: seq<Metered>, names: seq<string>)
    requires Distinct(names)
    requires forall name :: name in names <==> name in Collected(node, pods, |pods|)
    ensures TotalOver(Collected(node, pods, |pods|), names) == 2 * (1 + |pods| + ContainerCount(pods, |pods|))
  {
    var m, s := Collected(node, pods, |pods|), SixNames();
    MetricsAreConserved(node, pods, |pods|);
    SixAreDistinct();
    forall name | name in names
      ensures name in s
    {
      OneOfSix(m, name);
    }
    TotalIsOrderFree(m, names, s);
    TotalOfSix(m, s);
  }
}
