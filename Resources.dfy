/** A resource specification and the custom resource collector (`askResource`). */
module Resources {
  import opened JsNumber
  import opened Conversions
  import opened Validation

  /** `{cpu, memoryBytes}`. The CPU is the parsed number; memory is a finite byte count,
      not necessarily whole (0.1 MB is 104857.6 bytes). */
  datatype Resource = Resource(cpu: Num, memoryBytes: real)

  /** What validation guarantees of every resource the calculator builds. */
  predicate Valid(r: Resource) {
    Positive(r.cpu) && r.memoryBytes > 0.0
  }

  /** The three answers `askResource` collects: the CPU and memory texts, parsed as
      numbers, and the unit chosen from the menu. */
  datatype Answers = Answers(cpu: Num, memory: Num, unit: Unit)

  /** The prompt library returns an answer only once its validator has accepted it. */
  predicate Accepted(a: Answers) {
    ValidateCpu(a.cpu).Accepted? && ValidateMemory(a.memory).Accepted?
  }

  /** The result `askResource` builds from accepted answers: the CPU as parsed, and the
      memory magnitude converted to bytes in the chosen unit. */
  function AskResource(a: Answers): (r: Resource)
    requires Accepted(a)
    ensures Valid(r)
    ensures r.cpu == a.cpu
    ensures r.memoryBytes / UnitSize(a.unit) as real == a.memory.value
  {
    Resource(a.cpu, ToBytes(a.memory.value, a.unit))
  }

  /** Accepted answers are exactly those that yield a valid resource: the validators
      rule out precisely what would break the invariant. */
  lemma AcceptedIffValid(a: Answers)
    ensures Accepted(a) <==>
      Positive(a.cpu) && a.memory.Finite? && Valid(Resource(a.cpu, ToBytes(a.memory.value, a.unit)))
  {
    if a.memory.Finite? {
      assert ToBytes(a.memory.value, a.unit) > 0.0 <==> a.memory.value > 0.0;
    }
  }
}
