/** The input validators the prompts run on each answer. Each returns `true`
    (here `Accepted`) or the message to show before asking again. The argument is
    the answer already parsed as a JavaScript number. */
module Validation {
  import opened JsNumber

  datatype Verdict = Accepted | Rejected(message: string)

  const CpuMessage: string := "CPU must be a positive number (e.g. 0.5, 1, 2.5)"
  const NotNumericMessage: string := "You must provide a valid numeric value"
  const NotPositiveMessage: string := "Memory must be greater than 0"

  /** `validateCpu`: rejects NaN and anything `<= 0`, and nothing else, so +Infinity passes. */
  function ValidateCpu(num: Num): (v: Verdict)
    ensures v.Accepted? <==> Positive(num)
    ensures v.Rejected? ==> v.message == CpuMessage
  {
    if IsNaN(num) || AtMost(num, Finite(0.0)) then Rejected(CpuMessage) else Accepted
  }

  /** `validateMemory`: a non-finite value (NaN or either infinity) is reported as not
      numeric before its sign is looked at; a finite value `<= 0` is reported as not
      positive; a finite positive value is accepted. */
  function ValidateMemory(num: Num): (v: Verdict)
    ensures v == Rejected(NotNumericMessage) <==> !num.Finite?
    ensures v == Rejected(NotPositiveMessage) <==> num.Finite? && num.value <= 0.0
    ensures v == Accepted <==> num.Finite? && num.value > 0.0
  {
    if !IsFinite(num) then Rejected(NotNumericMessage)
    else if AtMost(num, Finite(0.0)) then Rejected(NotPositiveMessage)
    else Accepted
  }

  /** The two validators agree on every value except +Infinity, which only the CPU
      validator accepts. -Infinity is refused by both, with different messages. */
  lemma ValidatorsDifferOnlyAtInfinity(num: Num)
    ensures ValidateMemory(num).Accepted? ==> ValidateCpu(num).Accepted?
    ensures ValidateCpu(num).Accepted? != ValidateMemory(num).Accepted? <==> num == PosInf
    ensures ValidateCpu(NegInf) == Rejected(CpuMessage)
    ensures ValidateMemory(NegInf) == Rejected(NotNumericMessage)
  {
  }

  /** Example answers, once parsed: "0", "-1" and "abc" (NaN) are refused as CPU values
      and "0.1" is accepted; "512" is accepted as memory and "0" refused. A blank
      memory answer trims to "", which `Number` parses as 0, so it draws the
      not-positive message. */
  lemma ExampleAnswers()
    ensures ValidateCpu(Finite(0.0)) == Rejected(CpuMessage)
    ensures ValidateCpu(Finite(-1.0)) == Rejected(CpuMessage)
    ensures ValidateCpu(NaN) == Rejected(CpuMessage)
    ensures ValidateCpu(Finite(0.1)) == Accepted
    ensures ValidateMemory(Finite(512.0)) == Accepted
    ensures ValidateMemory(Finite(0.0)) == Rejected(NotPositiveMessage)
  {
  }
}
