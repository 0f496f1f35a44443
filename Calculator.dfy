/** The calculator's run once the prompts have been answered: the reserved and limit
    resources come from a preset or from two passes of the collector, the
    limit-versus-reservation check yields its warnings, and the report carries the
    byte counts and nano-CPU values to print. */
module Calculator {
  import opened JsNumber
  import opened Conversions
  import Validation
  import opened Resources
  import opened Presets

  datatype Warning = CpuLimitBelowReservation | MemoryLimitBelowReservation

  /** The two independent comparisons after the resources are known: a CPU warning when
      `limit.cpu < reserved.cpu`, then a memory warning when
      `limit.memoryBytes < reserved.memoryBytes`. */
  function ConsistencyWarnings(reserved: Resource, limit: Resource): (w: seq<Warning>)
    ensures CpuLimitBelowReservation in w <==> Less(limit.cpu, reserved.cpu)
    ensures MemoryLimitBelowReservation in w <==> limit.memoryBytes < reserved.memoryBytes
    ensures forall i, j :: 0 <= i < j < |w| ==>
      w[i] == CpuLimitBelowReservation && w[j] == MemoryLimitBelowReservation
  {
    (if Less(limit.cpu, reserved.cpu) then [CpuLimitBelowReservation] else [])
    + (if limit.memoryBytes < reserved.memoryBytes then [MemoryLimitBelowReservation] else [])
  }

  /** A limit at least its reservation in both dimensions draws no warning, and for
      valid resources that is the only way to draw none. */
  lemma NoWarningsIffLimitCovers(reserved: Resource, limit: Resource)
    requires Valid(reserved) && Valid(limit)
    ensures ConsistencyWarnings(reserved, limit) == [] <==>
      AtMost(reserved.cpu, limit.cpu) && reserved.memoryBytes <= limit.memoryBytes
  {
    LessIsStrictTotalOrder(limit.cpu, reserved.cpu, limit.cpu);
    var w := ConsistencyWarnings(reserved, limit);
    if w == [] {
      assert CpuLimitBelowReservation !in w && MemoryLimitBelowReservation !in w;
    }
  }

  /** The answers to the mode prompt and what follows it. */
  datatype Mode =
    | UsePreset(key: string)
    | CustomValues(reservedAnswers: Answers, limitAnswers: Answers)

  /** The preset menu only offers catalog keys, and the collector only returns accepted
      answers. */
  predicate Admissible(m: Mode) {
    match m
    case UsePreset(key) => key in Catalog
    case CustomValues(r, l) => Accepted(r) && Accepted(l)
  }

  /** The `reserved` and `limit` resources the run works with. */
  function Resolve(m: Mode): (rl: (Resource, Resource))
    requires Admissible(m)
    ensures Valid(rl.0) && Valid(rl.1)
  {
    match m
    case UsePreset(key) =>
      PresetsWellFormed(key);
      (Catalog[key].reserved, Catalog[key].limit)
    case CustomValues(r, l) => (AskResource(r), AskResource(l))
  }

  /** The numbers the report prints, and the warnings printed before it. For each
      resource: its byte count, its nano-CPU value, and its CPU value as answered,
      which the report echoes in a comment after the nano-CPU value. */
  datatype Report = Report(
    warnings: seq<Warning>,
    limitMemory: real, limitNanoCpu: Num, limitCpu: Num,
    reservedMemory: real, reservedNanoCpu: Num, reservedCpu: Num)

  /** A whole run: resolve the resources, check them, convert them. The check changes
      neither resource, the CPU values echoed are the ones answered, every printed
      memory value is positive, and every printed nano-CPU
      value is a whole, non-negative nano-CPU count within half a nano-CPU of the CPU
      value (halves upward), or +Infinity for an infinite CPU answer. */
  function Calculate(m: Mode): (rep: Report)
    requires Admissible(m)
    ensures rep.warnings == ConsistencyWarnings(Resolve(m).0, Resolve(m).1)
    ensures rep.limitMemory == Resolve(m).1.memoryBytes > 0.0
    ensures rep.reservedMemory == Resolve(m).0.memoryBytes > 0.0
    ensures rep.limitCpu == Resolve(m).1.cpu && rep.reservedCpu == Resolve(m).0.cpu
    ensures rep.limitNanoCpu == ToNanoCpu(Resolve(m).1.cpu)
    ensures rep.reservedNanoCpu == ToNanoCpu(Resolve(m).0.cpu)
    ensures rep.limitNanoCpu == PosInf || (rep.limitNanoCpu.Finite? &&
      0.0 <= rep.limitNanoCpu.value == rep.limitNanoCpu.value.Floor as real &&
      Resolve(m).1.cpu.Finite? &&
      Resolve(m).1.cpu.value * NanoPerCpu as real - 0.5 < rep.limitNanoCpu.value
        <= Resolve(m).1.cpu.value * NanoPerCpu as real + 0.5)
    ensures rep.reservedNanoCpu == PosInf || (rep.reservedNanoCpu.Finite? &&
      0.0 <= rep.reservedNanoCpu.value == rep.reservedNanoCpu.value.Floor as real &&
      Resolve(m).0.cpu.Finite? &&
      Resolve(m).0.cpu.value * NanoPerCpu as real - 0.5 < rep.reservedNanoCpu.value
        <= Resolve(m).0.cpu.value * NanoPerCpu as real + 0.5)
  {
    var (reserved, limit) := Resolve(m);
    NonNegativeNanoCpu(reserved.cpu);
    NonNegativeNanoCpu(limit.cpu);
    Report(ConsistencyWarnings(reserved, limit),
      limit.memoryBytes, ToNanoCpu(limit.cpu), limit.cpu,
      reserved.memoryBytes, ToNanoCpu(reserved.cpu), reserved.cpu)
  }

  /** Choosing any preset never prints a warning. */
  lemma PresetRunsNeverWarn(key: string)
    requires key in Catalog
    ensures Calculate(UsePreset(key)).warnings == []
  {
    PresetsWellFormed(key);
    NoWarningsIffLimitCovers(Catalog[key].reserved, Catalog[key].limit);
  }

  /** A positive CPU value converts to +Infinity or to a non-negative nano-CPU count. */
  lemma NonNegativeNanoCpu(cpu: Num)
    requires Positive(cpu)
    ensures ToNanoCpu(cpu) == PosInf || (ToNanoCpu(cpu).Finite? && ToNanoCpu(cpu).value >= 0.0)
  {
    if cpu.Finite? {
      NanoCpuMonotone(cpu.value, cpu.value);
    }
  }

  /** Every positive CPU value below half a nano-CPU passes `validateCpu` yet is
      reported as 0 nano-CPUs. */
  lemma TinyCpuRoundsToZero(c: real)
    requires 0.0 < c < 0.0000000005
    ensures Validation.ValidateCpu(Finite(c)).Accepted?
    ensures ToNanoCpu(Finite(c)) == Finite(0.0)
  {
    assert 0.0 <= c * NanoPerCpu as real < 0.5;
  }

  /** The `react-qa` preset: 128 MB and 0.1 CPU reserved, 256 MB and 0.25 CPU limit,
      no warning. */
  lemma ReactQaScenario()
    ensures Calculate(UsePreset("react-qa")) ==
      Report([],
        268_435_456.0, Finite(250_000_000.0), Finite(0.25),
        134_217_728.0, Finite(100_000_000.0), Finite(0.1))
  {
    PresetBytes();
    NanoCpuExamples();
  }

  /** Custom values with 2 CPUs and 1 GB reserved but 1 CPU and 512 MB as the limit:
      both warnings, CPU first, and the report is still produced. */
  lemma InvertedCustomScenario()
    ensures Calculate(CustomValues(
        Answers(Finite(2.0), Finite(1.0), GB), Answers(Finite(1.0), Finite(512.0), MB))) ==
      Report([CpuLimitBelowReservation, MemoryLimitBelowReservation],
        536_870_912.0, Finite(1_000_000_000.0), Finite(1.0),
        1_073_741_824.0, Finite(2_000_000_000.0), Finite(2.0))
  {
    UnitSizes();
    NanoCpuExamples();
  }
}
