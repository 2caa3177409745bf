/** How a pod's containers become the containers of a Cloud Run service. */
module ServiceTranslation {
  import opened Kube

  /** The name is never set by the translation. */
  datatype ServiceContainer = ServiceContainer(
    name: string,
    image: string,
    ports: seq<ContainerPort>,
    cpuLimit: string,
    memoryLimit: string,
    env: seq<EnvVar>)

  // ---------- Go arithmetic and formatting ----------

  /** Integer division as Go does it, towards zero; Dafny's own rounds the other way on negatives. */
  function Quotient(a: int, b: int): int
    requires b > 0
  {
    if a >= 0 then a / b else -((-a) / b)
  }

  function Digit(d: nat): char
    requires d < 10
  {
    '0' + d as char
  }

  function Digits(n: nat): (s: string)
    ensures s != []
    ensures forall i | 0 <= i < |s| :: '0' <= s[i] <= '9'
  {
    if n < 10 then [Digit(n)] else Digits(n / 10) + [Digit(n % 10)]
  }

  function Decimal(i: int): string {
    if i < 0 then "-" + Digits(-i) else Digits(i)
  }

  function Mebibytes(bytes: int): int {
    Quotient(Quotient(bytes, 1024), 1024)
  }

  function MemoryLimit(bytes: int): string {
    Decimal(Mebibytes(bytes)) + "Mi"
  }

  // ---------- Reading a limit back ----------

  function DigitsValue(s: string): nat
    requires forall i | 0 <= i < |s| :: '0' <= s[i] <= '9'
  {
    if s == [] then 0
    else 10 * DigitsValue(s[..|s| - 1]) + (s[|s| - 1] as int - '0' as int)
  }

  predicate IsDigits(s: string) {
    s != [] && forall i | 0 <= i < |s| :: '0' <= s[i] <= '9'
  }

  function DecimalValue(s: string): Option<int> {
    if IsDigits(s) then Some(DigitsValue(s))
    else if |s| > 1 && s[0] == '-' && IsDigits(s[1..]) then Some(-(DigitsValue(s[1..]) as int))
    else None
  }

  /** The bytes a limit such as "12Mi" stands for. */
  function LimitBytes(limit: string): Option<int> {
    if |limit| < 2 || limit[|limit| - 2..] != "Mi" then None
    else
      match DecimalValue(limit[..|limit| - 2])
      case None => None
      case Some(m) => Some(m * 1_048_576)
  }

  // ---------- The translation ----------

  function Translated(c: ContainerSpec): ServiceContainer {
    ServiceContainer("", c.image, c.ports, Decimal(c.cpuLimit), MemoryLimit(c.memoryLimit), c.env)
  }

  function Template(containers: seq<ContainerSpec>): (t: seq<ServiceContainer>)
    ensures |t| == |containers|
  {
    seq(|containers|, i requires 0 <= i < |containers| => Translated(containers[i]))
  }

  lemma {:induction false} DigitsRoundTrip(n: nat)
    ensures DigitsValue(Digits(n)) == n
  {
    if n >= 10 {
      DigitsRoundTrip(n / 10);
      assert Digits(n)[..|Digits(n)| - 1] == Digits(n / 10);
    } else {
      assert [Digit(n)][..0] == [];
    }
  }

  lemma {:induction false} NoLeadingZero(n: nat)
    ensures Digits(n)[0] == '0' <==> n == 0
    ensures n < 10 ==> |Digits(n)| == 1
  {
    if n >= 10 {
      NoLeadingZero(n / 10);
    }
  }

  /** Reads back as the number it came from, and has no leading zero. */
  lemma DecimalRoundTrip(i: int)
    ensures DecimalValue(Decimal(i)) == Some(i)
    ensures Decimal(i)[0] == '0' ==> Decimal(i) == "0"
    ensures i < 0 ==> Decimal(i)[1] != '0'
  {
    NoLeadingZero(if i < 0 then -i else i);
    if i < 0 {
      DigitsRoundTrip(-i);
      assert Decimal(i)[1..] == Digits(-i);
      assert Decimal(i)[0] == '-' && Decimal(i)[0] in Decimal(i);
    } else {
      DigitsRoundTrip(i);
    }
  }

  /** Two successive truncating divisions are one by a mebibyte, towards zero for quantities of either
      sign. */
  lemma SuccessiveDivisions(v: int)
    ensures Mebibytes(v) == Quotient(v, 1_048_576)
    ensures v >= 0 ==> Mebibytes(v) * 1_048_576 <= v < (Mebibytes(v) + 1) * 1_048_576
    ensures v <= 0 ==> (Mebibytes(v) - 1) * 1_048_576 < v <= Mebibytes(v) * 1_048_576
  {
  }

  /** The memory limit of a service container stands for a whole number of mebibytes: the pod's limit
      rounded towards zero, so less than one mebibyte from it and never beyond. */
  lemma MemoryLimitIsWithinOneMebibyte(v: int)
    ensures LimitBytes(MemoryLimit(v)).Some?
    ensures
      var b := LimitBytes(MemoryLimit(v)).value;
      b % 1_048_576 == 0 && if v >= 0 then b <= v < b + 1_048_576 else b - 1_048_576 < v <= b
  {
    var m := Mebibytes(v);
    DecimalRoundTrip(m);
    SuccessiveDivisions(v);
    assert MemoryLimit(v)[..|MemoryLimit(v)| - 2] == Decimal(m);
    assert MemoryLimit(v)[|MemoryLimit(v)| - 2..] == "Mi";
  }

  /** A container without a memory limit, or with one below a mebibyte, asks for zero memory. */
  lemma SmallLimitsBecomeZero(v: int)
    ensures MemoryLimit(v) == "0Mi" <==> -1_048_576 < v < 1_048_576
  {
    SuccessiveDivisions(v);
    DecimalRoundTrip(Mebibytes(v));
    assert Decimal(0) == "0" by { assert Digits(0) == [Digit(0)]; }
    assert MemoryLimit(v)[..|MemoryLimit(v)| - 2] == Decimal(Mebibytes(v));
    assert "0Mi"[..1] == "0";
  }

  /** What survives the translation, container by container: images, ports, environment and limits. */
  lemma TranslationKeepsContainers(containers: seq<ContainerSpec>, i: nat)
    requires i < |containers|
    ensures
      var c, t := containers[i], Template(containers)[i];
      && t.image == c.image && t.name == ""
      && t.ports == c.ports && t.env == c.env
      && DecimalValue(t.cpuLimit) == Some(c.cpuLimit)
      && LimitBytes(t.memoryLimit).Some?
      && var b := LimitBytes(t.memoryLimit).value;
      if c.memoryLimit >= 0 then b <= c.memoryLimit < b + 1_048_576 else b - 1_048_576 < c.memoryLimit <= b
  {
    DecimalRoundTrip(containers[i].cpuLimit);
    MemoryLimitIsWithinOneMebibyte(containers[i].memoryLimit);
  }
}
