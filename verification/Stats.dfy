/** The pod totals of the stats summary: 32-bit draws added up in 64 bits. */
module Stats {
  import opened Kube

  const TWO_32 := 0x1_0000_0000
  const TWO_64 := 0x1_0000_0000_0000_0000

  datatype ContainerStats = ContainerStats(name: string, startTime: Time, usageNanoCores: nat, usageBytes: nat)

  datatype PodStats = PodStats(
    id: PodId,
    uid: string,
    startTime: Time,
    containers: seq<ContainerStats>,
    usageNanoCores: nat,
    usageBytes: nat)

  predicate Draws(xs: seq<nat>) {
    forall i | 0 <= i < |xs| :: xs[i] < TWO_32
  }

  function Sum(xs: seq<nat>): nat {
    if xs == [] then 0 else Sum(xs[..|xs| - 1]) + xs[|xs| - 1]
  }

  /** Adding the draws one by one to a 64-bit total, which wraps around. */
  function WrappedSum(xs: seq<nat>): nat {
    if xs == [] then 0 else (WrappedSum(xs[..|xs| - 1]) + xs[|xs| - 1]) % TWO_64
  }

  function Cores(cs: seq<ContainerStats>): (r: seq<nat>)
    ensures |r| == |cs| && forall i | 0 <= i < |cs| :: r[i] == cs[i].usageNanoCores
  {
    seq(|cs|, i requires 0 <= i < |cs| => cs[i].usageNanoCores)
  }

  function Bytes(cs: seq<ContainerStats>): (r: seq<nat>)
    ensures |r| == |cs| && forall i | 0 <= i < |cs| :: r[i] == cs[i].usageBytes
  {
    seq(|cs|, i requires 0 <= i < |cs| => cs[i].usageBytes)
  }

  /** Each draw counts once: a sum splits anywhere, and a single draw sums to itself. */
  lemma {:induction false} SumSplits(a: seq<nat>, x: nat, b: seq<nat>)
    ensures Sum(a + [x] + b) == Sum(a) + x + Sum(b)
  {
    if b == [] {
      assert a + [x] + b == a + [x] && (a + [x])[..|a|] == a;
    } else {
      var n := |b| - 1;
      assert (a + [x] + b)[..|a + [x] + b| - 1] == a + [x] + b[..n];
      SumSplits(a, x, b[..n]);
    }
  }

  lemma {:induction false} WrappingLosesOnlyTheCarry(xs: seq<nat>)
    ensures WrappedSum(xs) == Sum(xs) % 0x1_0000_0000_0000_0000
  {
    if xs != [] {
      WrappingLosesOnlyTheCarry(xs[..|xs| - 1]);
    }
  }

  lemma {:induction false} DrawsSumBound(xs: seq<nat>)
    requires Draws(xs)
    ensures Sum(xs) <= |xs| * (TWO_32 - 1)
  {
    if xs != [] {
      DrawsSumBound(xs[..|xs| - 1]);
    }
  }

  lemma {:induction false} HighestSum(n: nat)
    ensures Sum(seq(n, _ => TWO_32 - 1)) == n * (TWO_32 - 1)
  {
    if n > 0 {
      HighestSum(n - 1);
      assert seq(n, _ => TWO_32 - 1)[..n - 1] == seq(n - 1, _ => TWO_32 - 1);
    }
  }

  /** The total of a pod is exact whatever is drawn if and only if it has at most 2^32 + 1
      containers. */
  lemma TotalsAreExactIff(n: nat)
    ensures (forall xs: seq<nat> | |xs| == n && Draws(xs) :: WrappedSum(xs) == Sum(xs)) <==> n <= 4_294_967_297
  {
    forall xs: seq<nat> | |xs| == n && Draws(xs)
      ensures n <= TWO_32 + 1 ==> WrappedSum(xs) == Sum(xs)
    {
      WrappingLosesOnlyTheCarry(xs);
      DrawsSumBound(xs);
    }
    if n > TWO_32 + 1 {
      var xs := seq(n, _ => TWO_32 - 1);
      HighestSum(n);
      WrappingLosesOnlyTheCarry(xs);
      assert Draws(xs) && Sum(xs) >= TWO_64;
      assert WrappedSum(xs) != Sum(xs);
    }
  }
}
