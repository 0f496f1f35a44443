/** The unit converter: the memory unit table, bytes from a magnitude and a unit,
    and nano-CPUs (units of 10^-9 of a core) from fractional cores. */
module Conversions {
  import opened JsNumber

  /** The two memory units the unit prompt offers. */
  datatype Unit = MB | GB

  /** Nano-CPUs in one CPU. */
  const NanoPerCpu: nat := 1_000_000_000

  /** `b ** e` on natural numbers. */
  function Pow(b: nat, e: nat): (r: nat)
    ensures b > 0 ==> r > 0
    ensures b > 1 && e > 0 ==> r >= b
  {
    if e == 0 then 1 else b * Pow(b, e - 1)
  }

  /** `MEMORY_UNITS[u]`: binary multiples, MB = 1024 ** 2 and GB = 1024 ** 3. */
  function UnitSize(u: Unit): nat {
    match u
    case MB => Pow(1024, 2)
    case GB => Pow(1024, 3)
  }

  /** The unit sizes in bytes; a gigabyte is 1024 megabytes. */
  lemma UnitSizes()
    ensures UnitSize(MB) == 1_048_576
    ensures UnitSize(GB) == 1_073_741_824
    ensures UnitSize(GB) == 1024 * UnitSize(MB)
  {
    assert Pow(1024, 1) == 1024 * Pow(1024, 0) == 1024;
    assert Pow(1024, 2) == 1024 * Pow(1024, 1) == 1_048_576;
    assert Pow(1024, 3) == 1024 * Pow(1024, 2) == 1_073_741_824;
  }

  /** `toBytes(value, unit)`: the magnitude in bytes. It has the magnitude's sign, and
      dividing by the unit size gives the magnitude back. */
  function ToBytes(value: real, u: Unit): (r: real)
    ensures r > 0.0 <==> value > 0.0
    ensures r / UnitSize(u) as real == value
  {
    value * UnitSize(u) as real
  }

  /** Any magnitude in gigabytes is 1024 times the same magnitude in megabytes. */
  lemma GigabyteIsKibiMegabyte(value: real)
    ensures ToBytes(value, GB) == 1024.0 * ToBytes(value, MB)
  {
    UnitSizes();
  }

  /** One gigabyte and 1024 megabytes are the same 1073741824 bytes. */
  lemma OneGigabyte()
    ensures ToBytes(1.0, GB) == ToBytes(1024.0, MB) == 1_073_741_824.0
  {
    UnitSizes();
  }

  /** `toBytes` is linear and strictly increasing in the magnitude. */
  lemma ToBytesLinear(a: real, b: real, k: real, u: Unit)
    ensures ToBytes(a + b, u) == ToBytes(a, u) + ToBytes(b, u)
    ensures ToBytes(k * a, u) == k * ToBytes(a, u)
    ensures a < b <==> ToBytes(a, u) < ToBytes(b, u)
  {
  }

  /** A whole number of megabytes or gigabytes is a whole number of bytes. */
  lemma ToBytesOfWhole(n: int, u: Unit)
    ensures ToBytes(n as real, u) == (n * UnitSize(u)) as real
  {
  }

  /** `toNanoCpu(cpus)`, that is `Math.round(cpus * 1e9)`. */
  function ToNanoCpu(cpus: Num): (r: Num)
    ensures IsFinite(r) == IsFinite(cpus)
    ensures !cpus.Finite? ==> r == cpus
    ensures r.Finite? ==> r.value == r.value.Floor as real
    ensures r.Finite? ==>
      cpus.value * NanoPerCpu as real - 0.5 < r.value <= cpus.value * NanoPerCpu as real + 0.5
  {
    Round(Scale(cpus, NanoPerCpu as real))
  }

  /** When `cpus * 1e9` is already a whole number, it is exactly the result. */
  lemma NanoCpuExact(cpus: real, n: int)
    requires cpus * NanoPerCpu as real == n as real
    ensures ToNanoCpu(Finite(cpus)) == Finite(n as real)
  {
    RoundHalfUpOfInteger(n);
  }

  /** More CPU never gives fewer nano-CPUs, and a positive CPU never gives a negative count. */
  lemma NanoCpuMonotone(a: real, b: real)
    requires a <= b
    ensures ToNanoCpu(Finite(a)).value <= ToNanoCpu(Finite(b)).value
    ensures 0.0 <= a ==> 0.0 <= ToNanoCpu(Finite(a)).value
  {
    RoundHalfUpMonotone(a * NanoPerCpu as real, b * NanoPerCpu as real);
    if 0.0 <= a {
      RoundHalfUpMonotone(0.0, a * NanoPerCpu as real);
    }
  }

  /** The CPU amounts of the prompt's examples and of the presets: 0.1, 0.25, 0.5, 1, 2
      and 2.5 CPUs. An exact half of a nano-CPU goes up. */
  lemma NanoCpuExamples()
    ensures ToNanoCpu(Finite(0.1)) == Finite(100_000_000.0)
    ensures ToNanoCpu(Finite(0.25)) == Finite(250_000_000.0)
    ensures ToNanoCpu(Finite(0.5)) == Finite(500_000_000.0)
    ensures ToNanoCpu(Finite(1.0)) == Finite(1_000_000_000.0)
    ensures ToNanoCpu(Finite(2.0)) == Finite(2_000_000_000.0)
    ensures ToNanoCpu(Finite(2.5)) == Finite(2_500_000_000.0)
    ensures ToNanoCpu(Finite(0.0000000005)) == Finite(1.0)
  {
    NanoCpuExact(0.1, 100_000_000);
    NanoCpuExact(0.25, 250_000_000);
    NanoCpuExact(0.5, 500_000_000);
    NanoCpuExact(1.0, 1_000_000_000);
    NanoCpuExact(2.0, 2_000_000_000);
    NanoCpuExact(2.5, 2_500_000_000);
  }
}
