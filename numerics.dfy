/**
 * The floating-point library of the planner, abstracted.
 *
 * Every quantity of the planner is a `real`. The library functions the
 * Go code calls (`math.Sqrt`, `math.Acos`, `math.Sin`, `math.Pow` and
 * the constant `math.Pi`) are not computed: they are fields of an oracle
 * value that every operation using them receives as a parameter, and
 * `Lawful` collects the only facts about them that the proofs rely on.
 */
module Numerics {

  datatype MathOracle = MathOracle(
    sqrt: real -> real,
    acos: real -> real,
    sin: real -> real,
    pow: (real, real) -> real,
    pi: real)

  /**
   * The facts assumed of the library: a square root is never negative
   * and the root of zero is zero; an arc cosine lies in [0, pi].
   * (NaN results, which Go produces outside the domains, are not modelled.)
   */
  ghost predicate Lawful(o: MathOracle) {
    && o.sqrt(0.0) == 0.0
    && (forall x :: 0.0 <= o.sqrt(x))
    && (forall x :: 0.0 <= o.acos(x) <= o.pi)
  }

  /** `math.Abs`. */
  function Abs(x: real): (r: real)
    ensures 0.0 <= r && (r == x || r == -x)
    ensures x <= r && -x <= r
  {
    if x < 0.0 then -x else x
  }

  /** `math.Min` on ordinary (non-NaN) operands. */
  function Min(a: real, b: real): (r: real)
    ensures r <= a && r <= b
    ensures r == a || r == b
  {
    if a <= b then a else b
  }

  /** A product of two non-zero reals is non-zero. */
  lemma ProductNonZero(a: real, b: real)
    requires a != 0.0 && b != 0.0
    ensures a * b != 0.0
  {
  }

  /** A quotient of a non-zero real by a non-zero real is non-zero. */
  lemma QuotientNonZero(a: real, l: real)
    requires a != 0.0 && l != 0.0
    ensures a / l != 0.0
  {
  }

  /** A quotient of a non-negative real by a positive real is non-negative. */
  lemma QuotientNonNegative(a: real, b: real)
    ensures 0.0 <= a && 0.0 < b ==> 0.0 <= a / b
  {
  }

  /** A product of two non-negative reals is non-negative. */
  lemma QuotientNonPositive(a: real, b: real)
    ensures a <= 0.0 && 0.0 < b ==> a / b <= 0.0
  {
  }

  /** A product of two non-negative reals is non-negative. */
  lemma ProductNonNegative(a: real, b: real)
    ensures 0.0 <= a && 0.0 <= b ==> 0.0 <= a * b
  {
  }
}
