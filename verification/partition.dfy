/** Sums of consecutive basis functions: the telescoping identity behind
    Equation 3, partition of unity on the interior of the knot domain, and
    the bound that no basis value exceeds 1. */
module Partition {
  import opened Basis

  /** The sum of B(j, k, t, x) over a <= j < b. */
  function BasisSum(a: nat, b: nat, k: nat, t: seq<real>, x: real): (r: real)
    requires a <= b && b + k < |t|
    decreases b - a
  {
    if a == b then 0.0 else BasisSum(a, b - 1, k, t, x) + B(b - 1, k, t, x)
  }

  /** A sum may also be split off at its first index. */
  lemma {:induction false} PeelFirst(a: nat, b: nat, k: nat, t: seq<real>, x: real)
    requires a < b && b + k < |t|
    ensures BasisSum(a, b, k, t, x) == B(a, k, t, x) + BasisSum(a + 1, b, k, t, x)
    decreases b - a
  {
    if a + 1 < b {
      PeelFirst(a, b - 1, k, t, x);
    }
  }

  /** Summing Equation 3 over a <= j < b: each inner lower-order value is
      split between two neighbours whose shares add up to it, leaving only
      the two ends. */
  lemma {:induction false} Telescope(a: nat, b: nat, k: nat, t: seq<real>, x: real)
    requires NonDecreasing(t) && 0 < k && a < b && b + k < |t|
    ensures BasisSum(a, b, k, t, x)
         == LeftTerm(a, k, t, x) + BasisSum(a + 1, b, k - 1, t, x)
          + (B(b, k - 1, t, x) - LeftTerm(b, k, t, x))
    decreases b - a
  {
    RightIsComplement(b - 1, k, t, x);
    if a + 1 < b {
      Telescope(a, b - 1, k, t, x);
    }
  }

  /** Order 0: the spans [t[j], t[j+1]) for a <= j < b tile [t[a], t[b]). */
  lemma {:induction false} OrderZeroSum(a: nat, b: nat, t: seq<real>, x: real)
    requires NonDecreasing(t) && a <= b && b < |t|
    ensures BasisSum(a, b, 0, t, x) == if t[a] <= x < t[b] then 1.0 else 0.0
    decreases b - a
  {
    if a < b {
      OrderZeroSum(a, b - 1, t, x);
    }
  }

  /** Partition of unity: on [t[a+k], t[b]) the order-k basis functions with
      indices a <= j < b add up to exactly 1. */
  lemma {:induction false} PartitionOfUnity(a: nat, b: nat, k: nat, t: seq<real>, x: real)
    requires NonDecreasing(t) && a + k < b && b + k < |t|
    requires t[a + k] <= x < t[b]
    ensures BasisSum(a, b, k, t, x) == 1.0
    decreases k
  {
    if k == 0 {
      OrderZeroSum(a, b, t, x);
    } else {
      Telescope(a, b, k, t, x);
      LocalSupport(a, k - 1, t, x);
      LeftTermOfZero(a, k, t, x);
      LocalSupport(b, k - 1, t, x);
      LeftTermOfZero(b, k, t, x);
      PartitionOfUnity(a + 1, b, k - 1, t, x);
    }
  }

  /** Any run of consecutive basis functions sums to at most 1, at every x. */
  lemma {:induction false} SumAtMostOne(a: nat, b: nat, k: nat, t: seq<real>, x: real)
    requires NonDecreasing(t) && a <= b && b + k < |t|
    ensures BasisSum(a, b, k, t, x) <= 1.0
    decreases k
  {
    if k == 0 {
      OrderZeroSum(a, b, t, x);
    } else if a < b {
      Telescope(a, b, k, t, x);
      NonNegative(a, k - 1, t, x);
      NonNegative(b, k - 1, t, x);
      LeftTermBounds(a, k, t, x);
      LeftTermBounds(b, k, t, x);
      PeelFirst(a, b + 1, k - 1, t, x);
      SumAtMostOne(a, b + 1, k - 1, t, x);
    }
  }

  /** Every basis value over non-decreasing knots lies in [0, 1]. */
  lemma BasisInUnitInterval(i: nat, k: nat, t: seq<real>, x: real)
    requires NonDecreasing(t) && i + k + 1 < |t|
    ensures 0.0 <= B(i, k, t, x) <= 1.0
  {
    NonNegative(i, k, t, x);
    SumAtMostOne(i, i + 1, k, t, x);
  }
}
