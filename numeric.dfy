/** Qt's floating-point comparison helpers (qFuzzyCompare and qFuzzyIsNull from
    qnumeric.h), stated over reals. The calculator uses them to decide whether
    a divisor is zero and whether the memory register holds a value. */
module Numeric {

  function Abs(x: real): (r: real)
    ensures r >= 0.0 && (r == x || r == -x)
  {
    if x < 0.0 then -x else x
  }

  function Min(a: real, b: real): (r: real)
    ensures r <= a && r <= b && (r == a || r == b)
  {
    if a <= b then a else b
  }

  /** qFuzzyCompare(p1, p2): p1 and p2 are equal up to a relative tolerance
      of 1e-12 of the smaller magnitude. */
  predicate FuzzyCompare(p1: real, p2: real): (r: bool)
    ensures p1 == p2 ==> r
    ensures r ==> (p1 == 0.0 <==> p2 == 0.0)
  {
    Abs(p1 - p2) * 1000000000000.0 <= Min(Abs(p1), Abs(p2))
  }

  /** qFuzzyIsNull(d): d lies within the absolute tolerance 1e-12 of zero,
      on either side. */
  predicate FuzzyIsNull(d: real): (r: bool)
    ensures r <==> -0.000000000001 <= d <= 0.000000000001
  {
    Abs(d) <= 0.000000000001
  }

  /** Comparing against 0.0 with the relative tolerance only accepts 0.0 itself:
      the tolerance scales with the smaller magnitude, which is zero. */
  lemma FuzzyCompareZero(d: real)
    ensures FuzzyCompare(d, 0.0) <==> d == 0.0
  {
  }
}
