# Docker Compose resource calculator — verified model

This project models the calculator in `index.js` of docker-unit-converter. The tool
asks for a reservation and a limit, each with a CPU amount and a memory amount. They
come either from one of four presets or from custom answers. It warns when a limit is
below its reservation. It then prints memory in bytes and CPU in nano-CPUs (10^-9 of a
core), which are the numeric fields Docker Compose expects.

The model is written with functions, datatypes and lemmas, because the source is pure.
It has no loops, no mutable state and only constant tables.

- `JsNumber.dfy`: JavaScript numbers after parsing (`NaN`, `±Infinity`, finite exact
  reals); the `<` and `<=` comparisons, in which NaN is unordered; and `Math.round`.
  `Math.round` is proved equal to the ECMAScript definition: the nearest integer, with
  ties going towards +Infinity.
- `Conversions.dfy`: `MEMORY_UNITS` (binary multiples), `toBytes` and `toNanoCpu`.
- `Validation.dfy`: `validateCpu` and `validateMemory`, including their exact messages.
- `Resources.dfy`: a resource `{cpu, memoryBytes}` and the result `askResource` builds
  from accepted answers.
- `Presets.dfy`: the `PRESETS` catalog and the preset menu built from it.
- `Calculator.dfy`: the run in `main`. It resolves the two resources, computes the
  limit-versus-reservation warnings and the numbers in the report, and proves two
  example runs.

Behaviour of the code that a reader might not expect, all captured by the model:

- `validateCpu` rejects only NaN and values `<= 0`, so the answer `Infinity` is
  accepted as a CPU value. Its nano-CPU value is then `Infinity` (`Calculator.Calculate`).
- A memory magnitude may be fractional, so `memoryBytes` need not be a whole number of
  bytes. For example, 0.1 MB is 104857.6 bytes. The model keeps `memoryBytes` as a real.
  Only the presets are proved to have whole byte counts (`Presets.PresetsWellFormed`).
- A blank memory answer trims to the empty string, and `Number("")` is 0. The answer
  is therefore refused with "Memory must be greater than 0", not with the non-numeric
  message (`Validation.ExampleAnswers`).
- A positive CPU value below 0.5 × 10^-9 passes validation but prints as 0 nano-CPUs
  (`Calculator.TinyCpuRoundsToZero`).
- `validateCpu` does not trim its answer and `validateMemory` does. Both then call
  `Number`, which skips the same surrounding white space that `trim` removes, so the two
  validators see the same number. `toBytes` is given the raw memory text, and
  multiplication converts it with that same rule. The model therefore takes each answer
  as one parsed number.

## Model

| member | source | states |
|---|---|---|
| `JsNumber.LessIsStrictTotalOrder` | index.js:120-126 | the JS `<` used by the checks is irreflexive, asymmetric, transitive and total on non-NaN numbers, is false whenever NaN is involved, and `<=` is `<` or equality |
| `JsNumber.RoundHalfUp` | index.js:33-35 | `Math.round(x)` is an integer in (x − 1/2, x + 1/2], so exact halves go up |
| `JsNumber.RoundHalfUpIsNearest` | index.js:33-35 | `Math.round(x)` is at least as close to x as every integer, and of two equally close integers it is the larger (the ECMAScript definition of `Math.round`) |
| `JsNumber.RoundHalfUpMonotone` | index.js:33-35 | `Math.round` is monotone non-decreasing |
| `JsNumber.Scale` | index.js:34 | `cpus * 1_000_000_000` (a positive finite factor) keeps NaN as NaN, finite values finite, and positive values positive |
| `JsNumber.Round` | index.js:34 | `Math.round` returns NaN and ±Infinity unchanged; on a finite x it gives the whole number in (x − 1/2, x + 1/2], so exact halves go up |
| `Conversions.Pow` | index.js:6-7 | `b ** e` is positive for a positive base, and at least b for b > 1 and e > 0 |
| `Conversions.UnitSizes` | index.js:5-8 | MB is 1048576 bytes, GB is 1073741824 bytes, and GB = 1024 × MB |
| `Conversions.ToBytes` | index.js:37-39 | `toBytes` gives a positive result exactly for a positive magnitude, and dividing by the unit size gives the magnitude back |
| `Conversions.GigabyteIsKibiMegabyte` | index.js:37-39 | for every magnitude v, `toBytes(v, "GB") == 1024 * toBytes(v, "MB")` |
| `Conversions.OneGigabyte` | index.js:5-8 | `toBytes(1, "GB") == toBytes(1024, "MB") == 1073741824` |
| `Conversions.ToBytesLinear` | index.js:37-39 | `toBytes` is additive and homogeneous in the magnitude, and strictly increasing in it |
| `Conversions.ToBytesOfWhole` | index.js:37-39 | a whole number of MB or GB converts to a whole number of bytes |
| `Conversions.ToNanoCpu` | index.js:33-35 | `toNanoCpu` returns NaN and ±Infinity unchanged; a finite result is the whole number in (cpus × 10^9 − 1/2, cpus × 10^9 + 1/2], so exact halves go up |
| `Conversions.NanoCpuExact` | index.js:33-35 | when cpus × 10^9 is an integer n, `toNanoCpu(cpus)` is exactly n |
| `Conversions.NanoCpuMonotone` | index.js:33-35 | `toNanoCpu` is monotone non-decreasing, and non-negative for a non-negative CPU |
| `Conversions.NanoCpuExamples` | index.js:33-35 | the CPU amounts of the prompt text (index.js:65) and the presets, 0.1, 0.25, 0.5, 1, 2 and 2.5 CPUs, convert to 100000000, 250000000, 500000000, 1000000000, 2000000000 and 2500000000 nano-CPUs; 5 × 10^-10 CPU (an exact half) converts to 1 |
| `Validation.ValidateCpu` | index.js:41-47 | `validateCpu` accepts exactly the positive numbers, +Infinity included; every refusal carries the CPU message |
| `Validation.ValidateMemory` | index.js:49-61 | `validateMemory` gives the non-numeric message exactly for NaN and ±Infinity (before the sign is checked), the not-positive message exactly for finite values ≤ 0, and accepts exactly the finite positive values |
| `Validation.ValidatorsDifferOnlyAtInfinity` | index.js:41-61 | every value the memory validator accepts is accepted by the CPU validator; they disagree only at +Infinity; -Infinity draws a different message from each |
| `Validation.ExampleAnswers` | index.js:41-61 | 0, -1 and NaN are refused as CPU and 0.1 accepted; 512 is accepted as memory and 0 refused as not positive |
| `Resources.AskResource` | index.js:82-85 | from accepted answers, the built resource keeps the parsed CPU, has positive CPU and memory, and its memory divided by the unit size is the magnitude |
| `Resources.AcceptedIffValid` | index.js:63-86 | the answers pass both validators exactly when the CPU is positive, the memory is finite and the built resource is valid |
| `Presets.MenuChoices` | index.js:102-108 | the preset menu has one choice per catalog entry, in declaration order, with distinct keys that are all catalog keys and the preset's name as label |
| `Presets.PresetsWellFormed` | index.js:10-31 | every preset has positive CPU and memory, whole byte counts, a CPU limit at least its reserved CPU, and a memory limit at least its reserved memory |
| `Presets.PresetBytes` | index.js:10-31 | the catalog's byte counts: 128 MB = 134217728, 256 MB = 268435456, 512 MB = 536870912, 1 GB = 1073741824, 2 GB = 2147483648 |
| `Calculator.ConsistencyWarnings` | index.js:120-126 | the CPU warning appears iff `limit.cpu < reserved.cpu`, the memory warning iff `limit.memoryBytes < reserved.memoryBytes`, each at most once and CPU first |
| `Calculator.NoWarningsIffLimitCovers` | index.js:120-126 | for valid resources, no warning appears exactly when the limit is at least the reservation in both CPU and memory |
| `Calculator.Resolve` | index.js:99-118 | both resources of a run, from a preset or from two collector passes, are valid |
| `Calculator.Calculate` | index.js:120-142 | the report's memory values are the resolved resources' own, unaltered by the check, and positive; the echoed CPU values are the resolved ones; each nano-CPU value is `toNanoCpu` of the resolved CPU: +Infinity or a whole, non-negative count in (cpu × 10^9 − 1/2, cpu × 10^9 + 1/2] |
| `Calculator.TinyCpuRoundsToZero` | index.js:33-47 | every CPU value strictly between 0 and 5 × 10^-10 is accepted by `validateCpu` and converts to 0 nano-CPUs |
| `Calculator.NonNegativeNanoCpu` | index.js:33-35 | a positive CPU value converts to +Infinity or to a non-negative count |
| `Calculator.PresetRunsNeverWarn` | index.js:101-126 | choosing any preset never produces a warning |
| `Calculator.ReactQaScenario` | index.js:11-15 | the `react-qa` run reports 268435456 bytes and 250000000 nano-CPUs as limit, 134217728 bytes and 100000000 nano-CPUs as reservation, echoes 0.25 and 0.1 CPUs, and gives no warning |
| `Calculator.InvertedCustomScenario` | index.js:115-126 | custom answers of 2 CPUs and 1 GB reserved with 1 CPU and 512 MB as limit produce both warnings and still report 2000000000 and 1000000000 nano-CPUs, echoing 2 and 1 CPUs |

## Left out

- The prompt library (`input`, `select`) and its re-prompt loop are left out because
  they are foreign code and interactive I/O. The model takes the answers as given,
  requires that the validators accepted them, and requires that a preset key comes
  from the menu (`Calculator.Admissible`). The prompt messages and the `title`
  argument of `askResource` only label prompts and are not modelled.
- Console output is left out: the banner, "✓ Preset applied", the warning lines and
  the text of the report. That text depends on JavaScript's number-to-string
  conversion. The model computes the warnings and the numbers the report prints
  (`Calculator.Report`), not its text. For each resource these are the byte count,
  the nano-CPU value and the CPU value as answered, which the report echoes.
- `Number(...)` parsing and `String.prototype.trim` are not modelled. Each answer
  enters the model as an already-parsed number.
- IEEE-754 double arithmetic is not modelled. Numbers are exact reals, so rounding in
  `0.1 * 1e9` and precision loss for huge values are outside the model. Negative zero
  is not distinguished from zero.
- Overflow to Infinity is not modelled. In the source a finite memory answer passes
  `validateMemory` and can still overflow to `Infinity` in `toBytes` (`1e300` GB, or
  `1e303` MB), and a finite
  CPU above about 1.8 × 10^299 gives `Infinity` nano-CPUs. In the model both stay
  finite: `Resources.AskResource` and `Conversions.ToNanoCpu` promise a finite result
  for a finite input, which holds only below the double range.
- `Conversions.ToBytes` takes the magnitude as a finite real. The source only calls it
  with magnitudes `validateMemory` accepted, so NaN and infinite magnitudes never reach it.
- The async control flow of `main` is not modelled as such. It is represented by the
  pure function `Calculator.Calculate` over the answers.
