/** JavaScript numbers as the calculator sees them once its text inputs are parsed.
    Finite values are exact reals: IEEE-754 rounding is not modelled. The comparisons
    follow the ECMAScript abstract relational comparison, in which NaN is unordered. */
module JsNumber {

  datatype Num = NaN | PosInf | NegInf | Finite(value: real)

  /** `Number.isNaN(n)` */
  predicate IsNaN(n: Num) {
    n.NaN?
  }

  /** `Number.isFinite(n)` */
  predicate IsFinite(n: Num) {
    n.Finite?
  }

  /** `a < b` on numbers: false whenever either side is NaN. */
  predicate Less(a: Num, b: Num) {
    match (a, b)
    case (Finite(x), Finite(y)) => x < y
    case (NaN, _) => false
    case (_, NaN) => false
    case (NegInf, _) => !b.NegInf?
    case (_, PosInf) => !a.PosInf?
    case (_, _) => false
  }

  /** `a <= b` on numbers: `b < a` is not true, and neither side is NaN. */
  predicate AtMost(a: Num, b: Num) {
    !IsNaN(a) && !IsNaN(b) && !Less(b, a)
  }

  /** A number strictly above zero; +Infinity is one. */
  predicate Positive(n: Num) {
    n == PosInf || (n.Finite? && n.value > 0.0)
  }

  /** `a * k` for a positive finite constant `k`: infinities and NaN pass through. */
  function Scale(a: Num, k: real): (r: Num)
    requires k > 0.0
    ensures IsFinite(r) == IsFinite(a) && IsNaN(r) == IsNaN(a)
    ensures Positive(r) <==> Positive(a)
  {
    match a
    case Finite(x) => Finite(x * k)
    case _ => a
  }

  function Abs(x: real): real {
    if x < 0.0 then -x else x
  }

  /** `Math.round` on a finite argument: the integer at most one half away, halves upward. */
  function RoundHalfUp(x: real): (r: int)
    ensures x - 0.5 < r as real <= x + 0.5
  {
    (x + 0.5).Floor
  }

  /** `Math.round` on any number: NaN and the infinities are returned unchanged; a
      finite number goes to the whole number at most one half away, halves upward. */
  function Round(a: Num): (r: Num)
    ensures IsFinite(r) == IsFinite(a)
    ensures !a.Finite? ==> r == a
    ensures r.Finite? ==> r.value == r.value.Floor as real
    ensures r.Finite? ==> a.value - 0.5 < r.value <= a.value + 0.5
  {
    match a
    case Finite(x) => Finite(RoundHalfUp(x) as real)
    case _ => a
  }

  /** NaN is unordered and every other number is comparable: `<` is a strict total
      order on the non-NaN numbers, and `<=` is `<` or equality there. */
  lemma LessIsStrictTotalOrder(a: Num, b: Num, c: Num)
    ensures !Less(a, a)
    ensures IsNaN(a) || IsNaN(b) ==> !Less(a, b) && !AtMost(a, b)
    ensures !IsNaN(a) && !IsNaN(b) ==> (Less(a, b) || a == b || Less(b, a))
    ensures Less(a, b) ==> !Less(b, a)
    ensures Less(a, b) && Less(b, c) ==> Less(a, c)
    ensures AtMost(a, b) <==> !IsNaN(a) && !IsNaN(b) && (Less(a, b) || a == b)
  {
  }

  /** The ECMAScript definition of `Math.round`: the integer closest to `x`, and of two
      equally close integers the one closer to +Infinity. `RoundHalfUp` meets it against
      every integer `n`. */
  lemma RoundHalfUpIsNearest(x: real, n: int)
    ensures Abs(RoundHalfUp(x) as real - x) <= Abs(n as real - x)
    ensures Abs(RoundHalfUp(x) as real - x) == Abs(n as real - x) ==> n <= RoundHalfUp(x)
  {
    var r := RoundHalfUp(x);
    if n > r {
      assert n as real >= r as real + 1.0;
      assert n as real - x > 0.5;
    } else if n < r {
      assert n as real <= r as real - 1.0;
      assert x - n as real >= 0.5;
    }
  }

  /** `Math.round` never decreases when its argument grows. */
  lemma RoundHalfUpMonotone(x: real, y: real)
    requires x <= y
    ensures RoundHalfUp(x) <= RoundHalfUp(y)
  {
    var rx, ry := RoundHalfUp(x), RoundHalfUp(y);
    assert rx as real <= x + 0.5 <= y + 0.5 < ry as real + 1.0;
  }

  /** `Math.round` leaves an integer as it is. */
  lemma RoundHalfUpOfInteger(n: int)
    ensures RoundHalfUp(n as real) == n
  {
  }
}
