/** The B-spline basis functions of `CentralModel.__B__`: the Cox-de Boor
    recursion over a knot vector, with the convention that a zero-width span
    gives its fractional coefficient the value 1. */
module Basis {

  /** Knot vectors are non-decreasing. */
  predicate NonDecreasing(t: seq<real>) {
    forall p, q :: 0 <= p <= q < |t| ==> t[p] <= t[q]
  }

  /** The i-th basis function of order k over knots t, evaluated at x
      (Equations 2 and 3). Order 0 is the indicator of the right-open span
      [t[i], t[i+1]). */
  function B(i: nat, k: nat, t: seq<real>, x: real): (r: real)
    requires i + k + 1 < |t|
    decreases k, 1
  {
    if k == 0 then
      if t[i] <= x < t[i + 1] then 1.0 else 0.0
    else
      LeftTerm(i, k, t, x) + RightTerm(i, k, t, x)
  }

  /** The first term of Equation 3, (x - t[i]) / (t[i+k] - t[i]) * B(i, k - 1).
      When the denominator is zero, numerator and denominator both become 1,
      so the term is B(i, k - 1) itself. */
  function LeftTerm(i: nat, k: nat, t: seq<real>, x: real): (r: real)
    requires 0 < k && i + k < |t|
    decreases k, 0
  {
    if t[i + k] - t[i] == 0.0 then B(i, k - 1, t, x)
    else (x - t[i]) / (t[i + k] - t[i]) * B(i, k - 1, t, x)
  }

  /** The second term of Equation 3, (t[i+k+1] - x) / (t[i+k+1] - t[i+1]) * B(i + 1, k - 1),
      with the same rule for a zero denominator. */
  function RightTerm(i: nat, k: nat, t: seq<real>, x: real): (r: real)
    requires 0 < k && i + k + 1 < |t|
    decreases k, 0
  {
    if t[i + k + 1] - t[i + 1] == 0.0 then B(i + 1, k - 1, t, x)
    else (t[i + k + 1] - x) / (t[i + k + 1] - t[i + 1]) * B(i + 1, k - 1, t, x)
  }

  /** The textbook Cox-de Boor recursion, in which a term over a zero-width
      span is dropped (the usual 0/0 := 0 convention). An independent
      reference for B. */
  function CoxDeBoor(i: nat, k: nat, t: seq<real>, x: real): (r: real)
    requires i + k + 1 < |t|
    decreases k
  {
    if k == 0 then
      if t[i] <= x < t[i + 1] then 1.0 else 0.0
    else
      (if t[i + k] == t[i] then 0.0
       else (x - t[i]) / (t[i + k] - t[i]) * CoxDeBoor(i, k - 1, t, x))
      + (if t[i + k + 1] == t[i + 1] then 0.0
         else (t[i + k + 1] - x) / (t[i + k + 1] - t[i + 1]) * CoxDeBoor(i + 1, k - 1, t, x))
  }

  /** Equation 2: order 0 is 1 exactly on the right-open span [t[i], t[i+1])
      and 0 elsewhere, so x == t[i+1] gives 0. */
  lemma BaseCase(i: nat, t: seq<real>, x: real)
    requires i + 1 < |t|
    ensures B(i, 0, t, x) == 1.0 <==> t[i] <= x < t[i + 1]
    ensures B(i, 0, t, x) == 0.0 <==> x < t[i] || t[i + 1] <= x
  {
  }

  /** The zero-denominator rule keeps the term over a zero-width span at full
      weight; on knots that are not sorted this differs from dropping the
      term: here B gives 13/8 where the textbook recursion gives 9/8. */
  lemma RuleDiffersFromDroppingTerm()
    ensures B(0, 2, [0.0, 1.0, 0.0, 2.0], 0.5) == 13.0 / 8.0
    ensures CoxDeBoor(0, 2, [0.0, 1.0, 0.0, 2.0], 0.5) == 9.0 / 8.0
  {
    var t := [0.0, 1.0, 0.0, 2.0];
    assert B(0, 0, t, 0.5) == 1.0 && B(1, 0, t, 0.5) == 0.0 && B(2, 0, t, 0.5) == 1.0;
    assert B(0, 1, t, 0.5) == 0.5;
    assert B(1, 1, t, 0.5) == 0.75;
    assert CoxDeBoor(1, 1, t, 0.5) == 0.75;
  }

  /** Local support: over non-decreasing knots, B(i, k) vanishes outside
      [t[i], t[i+k+1]). */
  lemma {:induction false} LocalSupport(i: nat, k: nat, t: seq<real>, x: real)
    requires NonDecreasing(t) && i + k + 1 < |t|
    requires x < t[i] || t[i + k + 1] <= x
    ensures B(i, k, t, x) == 0.0
    decreases k
  {
    if k > 0 {
      assert t[i + k] <= t[i + k + 1] && t[i] <= t[i + 1];
      LocalSupport(i, k - 1, t, x);
      LocalSupport(i + 1, k - 1, t, x);
    }
  }

  /** A term that the zero-denominator rule keeps at full weight contributes
      nothing when the knots are non-decreasing: its lower-order factor is 0. */
  lemma SubstitutedTermVanishes(i: nat, k: nat, t: seq<real>, x: real)
    requires NonDecreasing(t) && 0 < k && i + k + 1 < |t|
    ensures t[i + k] == t[i] ==> LeftTerm(i, k, t, x) == B(i, k - 1, t, x) == 0.0
    ensures t[i + k + 1] == t[i + 1] ==> RightTerm(i, k, t, x) == B(i + 1, k - 1, t, x) == 0.0
  {
    if t[i + k] == t[i] {
      LocalSupport(i, k - 1, t, x);
    }
    if t[i + k + 1] == t[i + 1] {
      LocalSupport(i + 1, k - 1, t, x);
    }
  }

  /** Over non-decreasing knots the zero-denominator rule agrees with the
      textbook recursion that drops zero-width terms. */
  lemma {:induction false} AgreesWithCoxDeBoor(i: nat, k: nat, t: seq<real>, x: real)
    requires NonDecreasing(t) && i + k + 1 < |t|
    ensures B(i, k, t, x) == CoxDeBoor(i, k, t, x)
    decreases k
  {
    if k > 0 {
      AgreesWithCoxDeBoor(i, k - 1, t, x);
      AgreesWithCoxDeBoor(i + 1, k - 1, t, x);
      SubstitutedTermVanishes(i, k, t, x);
    }
  }

  /** A quotient a / d with 0 <= a < d lies in [0, 1). */
  lemma RatioInUnitInterval(a: real, d: real)
    requires 0.0 <= a < d
    ensures 0.0 <= a / d < 1.0
  {
    assert a / d * d == a;
  }

  /** 0 <= a / d * b <= b whenever 0 <= a < d and 0 <= b. */
  lemma ScaledByRatio(a: real, d: real, b: real)
    requires 0.0 <= a < d && 0.0 <= b
    ensures 0.0 <= a / d * b <= b
  {
    RatioInUnitInterval(a, d);
    var r := a / d;
    assert r * b <= 1.0 * b;
  }

  /** The left term of Equation 3 vanishes with its lower-order factor. */
  lemma LeftTermOfZero(i: nat, k: nat, t: seq<real>, x: real)
    requires 0 < k && i + k < |t| && B(i, k - 1, t, x) == 0.0
    ensures LeftTerm(i, k, t, x) == 0.0
  {
    var b := B(i, k - 1, t, x);
    if t[i + k] - t[i] != 0.0 {
      var r := (x - t[i]) / (t[i + k] - t[i]);
      assert LeftTerm(i, k, t, x) == r * b;
    }
  }

  /** Inside [t[i], t[i+k]) the left term's coefficient lies in [0, 1), so
      the term lies between 0 and its lower-order factor. */
  lemma LeftTermInside(i: nat, k: nat, t: seq<real>, x: real)
    requires 0 < k && i + k < |t| && t[i] <= x < t[i + k]
    requires 0.0 <= B(i, k - 1, t, x)
    ensures 0.0 <= LeftTerm(i, k, t, x) <= B(i, k - 1, t, x)
  {
    var b, num, den := B(i, k - 1, t, x), x - t[i], t[i + k] - t[i];
    ScaledByRatio(num, den, b);
    assert LeftTerm(i, k, t, x) == num / den * b;
  }

  /** The left term of Equation 3 lies between 0 and its lower-order factor. */
  lemma LeftTermBounds(i: nat, k: nat, t: seq<real>, x: real)
    requires NonDecreasing(t) && 0 < k && i + k < |t|
    requires 0.0 <= B(i, k - 1, t, x)
    ensures 0.0 <= LeftTerm(i, k, t, x) <= B(i, k - 1, t, x)
  {
    if x < t[i] || t[i + k] <= x {
      LocalSupport(i, k - 1, t, x);
      LeftTermOfZero(i, k, t, x);
    } else {
      LeftTermInside(i, k, t, x);
    }
  }

  /** a / d == 1 - b / d when a + b == d != 0. */
  lemma Complement(a: real, b: real, d: real)
    requires d != 0.0 && a + b == d
    ensures a / d == 1.0 - b / d
  {
    assert a / d + b / d == (a + b) / d;
  }

  /** (1 - q) * p == p - q * p. */
  lemma DistributeComplement(q: real, p: real)
    ensures (1.0 - q) * p == p - q * p
  {
  }

  /** The right term of B(i, k) is what the left term of B(i + 1, k) leaves
      of B(i + 1, k - 1): both weigh it over the span [t[i+1], t[i+k+1]]. */
  lemma RightIsComplement(i: nat, k: nat, t: seq<real>, x: real)
    requires NonDecreasing(t) && 0 < k && i + k + 1 < |t|
    ensures RightTerm(i, k, t, x) == B(i + 1, k - 1, t, x) - LeftTerm(i + 1, k, t, x)
  {
    if t[i + k + 1] == t[i + 1] {
      LocalSupport(i + 1, k - 1, t, x);
    } else {
      var d := t[i + k + 1] - t[i + 1];
      Complement(t[i + k + 1] - x, x - t[i + 1], d);
      DistributeComplement((x - t[i + 1]) / d, B(i + 1, k - 1, t, x));
    }
  }

  /** Basis functions over non-decreasing knots are never negative. */
  lemma {:induction false} NonNegative(i: nat, k: nat, t: seq<real>, x: real)
    requires NonDecreasing(t) && i + k + 1 < |t|
    ensures 0.0 <= B(i, k, t, x)
    decreases k
  {
    if k > 0 {
      NonNegative(i, k - 1, t, x);
      NonNegative(i + 1, k - 1, t, x);
      LeftTermBounds(i, k, t, x);
      LeftTermBounds(i + 1, k, t, x);
      RightIsComplement(i, k, t, x);
    }
  }
}
