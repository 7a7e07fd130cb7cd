/** Finite sums over index ranges, added in the order the source's loops accumulate
    them (index 0 first), and the algebra the model needs about them. */
module Sums {

  /** Sum of f(i) for 0 <= i < n. */
  function Sum(n: nat, f: int -> real): real
  {
    if n == 0 then 0.0 else Sum(n - 1, f) + f(n - 1)
  }

  /** Row i of a two-index term. */
  function Row(f: (int, int) -> real, i: int): int -> real
  {
    j => f(i, j)
  }

  /** Sum of f(i, j) for 0 <= i < n1, 0 <= j < n2, row by row. */
  function Sum2(n1: nat, n2: nat, f: (int, int) -> real): real
  {
    if n1 == 0 then 0.0 else Sum2(n1 - 1, n2, f) + Sum(n2, Row(f, n1 - 1))
  }

  /** Plane i of a three-index term. */
  function Plane(f: (int, int, int) -> real, i: int): (int, int) -> real
  {
    (j, k) => f(i, j, k)
  }

  /** Sum of f(i, j, k) over a three-dimensional index box, plane by plane. */
  function Sum3(n1: nat, n2: nat, n3: nat, f: (int, int, int) -> real): real
  {
    if n1 == 0 then 0.0 else Sum3(n1 - 1, n2, n3, f) + Sum2(n2, n3, Plane(f, n1 - 1))
  }

  /** Sums of terms that agree on the range are equal. */
  lemma {:induction false} SumCongruent(n: nat, f: int -> real, g: int -> real)
    requires forall i :: 0 <= i < n ==> f(i) == g(i)
    ensures Sum(n, f) == Sum(n, g)
  {
    if n > 0 {
      SumCongruent(n - 1, f, g);
    }
  }

  lemma {:induction false} Sum2Congruent(n1: nat, n2: nat, f: (int, int) -> real, g: (int, int) -> real)
    requires forall i, j :: 0 <= i < n1 && 0 <= j < n2 ==> f(i, j) == g(i, j)
    ensures Sum2(n1, n2, f) == Sum2(n1, n2, g)
  {
    if n1 > 0 {
      Sum2Congruent(n1 - 1, n2, f, g);
      SumCongruent(n2, Row(f, n1 - 1), Row(g, n1 - 1));
    }
  }

  lemma {:induction false} Sum3Congruent(n1: nat, n2: nat, n3: nat,
                                         f: (int, int, int) -> real, g: (int, int, int) -> real)
    requires forall i, j, k :: 0 <= i < n1 && 0 <= j < n2 && 0 <= k < n3 ==> f(i, j, k) == g(i, j, k)
    ensures Sum3(n1, n2, n3, f) == Sum3(n1, n2, n3, g)
  {
    if n1 > 0 {
      Sum3Congruent(n1 - 1, n2, n3, f, g);
      Sum2Congruent(n2, n3, Plane(f, n1 - 1), Plane(g, n1 - 1));
    }
  }

  /** A sum is linear in its term. */
  lemma {:induction false} SumLinear(n: nat, f: int -> real, g: int -> real, h: int -> real, a: real, b: real)
    requires forall i :: 0 <= i < n ==> h(i) == a * f(i) + b * g(i)
    ensures Sum(n, h) == a * Sum(n, f) + b * Sum(n, g)
  {
    if n > 0 {
      SumLinear(n - 1, f, g, h, a, b);
      assert Sum(n, h) == a * Sum(n - 1, f) + b * Sum(n - 1, g) + (a * f(n - 1) + b * g(n - 1));
    }
  }

  lemma {:induction false} Sum2Linear(n1: nat, n2: nat, f: (int, int) -> real, g: (int, int) -> real,
                                      h: (int, int) -> real, a: real, b: real)
    requires forall i, j :: 0 <= i < n1 && 0 <= j < n2 ==> h(i, j) == a * f(i, j) + b * g(i, j)
    ensures Sum2(n1, n2, h) == a * Sum2(n1, n2, f) + b * Sum2(n1, n2, g)
  {
    if n1 > 0 {
      Sum2Linear(n1 - 1, n2, f, g, h, a, b);
      SumLinear(n2, Row(f, n1 - 1), Row(g, n1 - 1), Row(h, n1 - 1), a, b);
    }
  }

  lemma {:induction false} Sum3Linear(n1: nat, n2: nat, n3: nat, f: (int, int, int) -> real, g: (int, int, int) -> real,
                                      h: (int, int, int) -> real, a: real, b: real)
    requires forall i, j, k :: 0 <= i < n1 && 0 <= j < n2 && 0 <= k < n3 ==> h(i, j, k) == a * f(i, j, k) + b * g(i, j, k)
    ensures Sum3(n1, n2, n3, h) == a * Sum3(n1, n2, n3, f) + b * Sum3(n1, n2, n3, g)
  {
    if n1 > 0 {
      Sum3Linear(n1 - 1, n2, n3, f, g, h, a, b);
      Sum2Linear(n2, n3, Plane(f, n1 - 1), Plane(g, n1 - 1), Plane(h, n1 - 1), a, b);
    }
  }

  /** Signs: a sum of non-negative (non-positive, zero) terms is non-negative (non-positive, zero). */
  lemma {:induction false} SumNonnegative(n: nat, f: int -> real)
    requires forall i :: 0 <= i < n ==> f(i) >= 0.0
    ensures Sum(n, f) >= 0.0
  {
    if n > 0 {
      SumNonnegative(n - 1, f);
    }
  }

  lemma {:induction false} Sum3Nonnegative(n1: nat, n2: nat, n3: nat, f: (int, int, int) -> real)
    requires forall i, j, k :: 0 <= i < n1 && 0 <= j < n2 && 0 <= k < n3 ==> f(i, j, k) >= 0.0
    ensures Sum3(n1, n2, n3, f) >= 0.0
  {
    if n1 > 0 {
      Sum3Nonnegative(n1 - 1, n2, n3, f);
      var p := Plane(f, n1 - 1);
      forall j | 0 <= j < n2
        ensures Sum(n3, Row(p, j)) >= 0.0
      {
        SumNonnegative(n3, Row(p, j));
      }
      Sum2Nonnegative(n2, n3, p);
    }
  }

  lemma {:induction false} Sum2Nonnegative(n1: nat, n2: nat, f: (int, int) -> real)
    requires forall i :: 0 <= i < n1 ==> Sum(n2, Row(f, i)) >= 0.0
    ensures Sum2(n1, n2, f) >= 0.0
  {
    if n1 > 0 {
      Sum2Nonnegative(n1 - 1, n2, f);
    }
  }

  lemma {:induction false} Sum3Nonpositive(n1: nat, n2: nat, n3: nat, f: (int, int, int) -> real)
    requires forall i, j, k :: 0 <= i < n1 && 0 <= j < n2 && 0 <= k < n3 ==> f(i, j, k) <= 0.0
    ensures Sum3(n1, n2, n3, f) <= 0.0
  {
    var g := (i, j, k) => -f(i, j, k);
    Sum3Nonnegative(n1, n2, n3, g);
    Sum3Negate(n1, n2, n3, f, g);
  }

  lemma {:induction false} Sum3Negate(n1: nat, n2: nat, n3: nat, f: (int, int, int) -> real, g: (int, int, int) -> real)
    requires forall i, j, k :: g(i, j, k) == -f(i, j, k)
    ensures Sum3(n1, n2, n3, g) == -Sum3(n1, n2, n3, f)
  {
    if n1 > 0 {
      Sum3Negate(n1 - 1, n2, n3, f, g);
      var zero := (i, j) => 0.0;
      Sum2Linear(n2, n3, Plane(f, n1 - 1), zero, Plane(g, n1 - 1), -1.0, 0.0);
    }
  }

  lemma {:induction false} Sum3Zero(n1: nat, n2: nat, n3: nat, f: (int, int, int) -> real)
    requires forall i, j, k :: 0 <= i < n1 && 0 <= j < n2 && 0 <= k < n3 ==> f(i, j, k) == 0.0
    ensures Sum3(n1, n2, n3, f) == 0.0
  {
    Sum3Nonnegative(n1, n2, n3, f);
    Sum3Nonpositive(n1, n2, n3, f);
  }

  lemma {:induction false} Sum2Zero(n1: nat, n2: nat, f: (int, int) -> real)
    requires forall i, j :: 0 <= i < n1 && 0 <= j < n2 ==> f(i, j) == 0.0
    ensures Sum2(n1, n2, f) == 0.0
  {
    Sum2Linear(n1, n2, f, f, f, 0.0, 0.0);
  }

  /** Fibre (i, j) and slice k of a three-index term. */
  function Fiber(f: (int, int, int) -> real, i: int, j: int): int -> real
  {
    k => f(i, j, k)
  }

  function Slice(f: (int, int, int) -> real, k: int): (int, int) -> real
  {
    (i, j) => f(i, j, k)
  }

  /** At (i, j): the sum of f(i, j, k) over 0 <= k < n3. */
  function Inner(f: (int, int, int) -> real, n3: nat): (int, int) -> real
  {
    (i, j) => Sum(n3, Fiber(f, i, j))
  }

  /** At k: the sum of f(i, j, k) over 0 <= i < n1, 0 <= j < n2. */
  function Outer(f: (int, int, int) -> real, n1: nat, n2: nat): int -> real
  {
    k => Sum2(n1, n2, Slice(f, k))
  }

  /** Summing the last index innermost or outermost gives the same total. */
  lemma {:induction false} Sum2Swap(n1: nat, n2: nat, n3: nat, f: (int, int, int) -> real)
    ensures Sum2(n1, n2, Inner(f, n3)) == Sum(n3, Outer(f, n1, n2))
  {
    if n3 == 0 {
      Sum2Zero(n1, n2, Inner(f, 0));
    } else {
      Sum2Swap(n1, n2, n3 - 1, f);
      Sum2Linear(n1, n2, Inner(f, n3 - 1), Slice(f, n3 - 1), Inner(f, n3), 1.0, 1.0);
    }
  }

  /** f read k places further on. */
  function Shifted(f: int -> real, k: int): int -> real
  {
    i => f(i + k)
  }

  /** Moving the range one place on drops f(0) and takes in f(n). */
  lemma {:induction false} SumShiftOne(n: nat, f: int -> real)
    ensures Sum(n, Shifted(f, 1)) + f(0) == Sum(n, f) + f(n)
  {
    if n > 0 {
      SumShiftOne(n - 1, f);
    }
  }

  /** If f vanishes outside both [0, n) and [k, n + k), the sum over [k, n + k) is the
      sum over [0, n). */
  lemma SumShift(n: nat, k: int, f: int -> real)
    requires forall i :: !(0 <= i < n && k <= i < n + k) ==> f(i) == 0.0
    ensures Sum(n, Shifted(f, k)) == Sum(n, f)
  {
    if k >= 0 {
      SumShiftRight(n, k, f);
    } else {
      var g := Shifted(f, k);
      forall i | !(0 <= i < n && -k <= i < n - k)
        ensures g(i) == 0.0
      {
        assert !(0 <= i + k < n && k <= i + k < n + k);
      }
      SumShiftRight(n, -k, g);
      SumCongruent(n, Shifted(g, -k), f);
    }
  }

  lemma {:induction false} SumShiftRight(n: nat, k: nat, f: int -> real)
    requires forall i :: !(0 <= i < n && k <= i < n + k) ==> f(i) == 0.0
    ensures Sum(n, Shifted(f, k)) == Sum(n, f)
  {
    if k == 0 {
      SumCongruent(n, Shifted(f, 0), f);
    } else {
      var f1 := Shifted(f, 1);
      forall i | !(0 <= i < n && k - 1 <= i < n + k - 1)
        ensures f1(i) == 0.0
      {
        assert !(0 <= i + 1 < n && k <= i + 1 < n + k);
      }
      SumShiftRight(n, k - 1, f1);
      SumCongruent(n, Shifted(f1, k - 1), Shifted(f, k));
      SumShiftOne(n, f);
      assert f(0) == 0.0 && f(n) == 0.0;
    }
  }

  /** Row sums of a two-index term. */
  function RowSums(f: (int, int) -> real, n2: nat): int -> real
  {
    i => Sum(n2, Row(f, i))
  }

  lemma {:induction false} Sum2IsSumOfRows(n1: nat, n2: nat, f: (int, int) -> real)
    ensures Sum2(n1, n2, f) == Sum(n1, RowSums(f, n2))
  {
    if n1 > 0 {
      Sum2IsSumOfRows(n1 - 1, n2, f);
    }
  }

  /** f read (k1, k2) places further on. */
  function Shifted2(f: (int, int) -> real, k1: int, k2: int): (int, int) -> real
  {
    (i, j) => f(i + k1, j + k2)
  }

  /** The two-index form of `SumShift`. */
  lemma {:induction false} Sum2Shift(n1: nat, n2: nat, k1: int, k2: int, f: (int, int) -> real)
    requires forall i, j :: !(0 <= i < n1 && k1 <= i < n1 + k1 && 0 <= j < n2 && k2 <= j < n2 + k2) ==> f(i, j) == 0.0
    ensures Sum2(n1, n2, Shifted2(f, k1, k2)) == Sum2(n1, n2, f)
  {
    var g := Shifted2(f, k1, k2);
    Sum2IsSumOfRows(n1, n2, g);
    Sum2IsSumOfRows(n1, n2, f);
    forall i | 0 <= i < n1
      ensures RowSums(g, n2)(i) == Shifted(RowSums(f, n2), k1)(i)
    {
      SumCongruent(n2, Row(g, i), Shifted(Row(f, i + k1), k2));
      SumShift(n2, k2, Row(f, i + k1));
    }
    SumCongruent(n1, RowSums(g, n2), Shifted(RowSums(f, n2), k1));
    forall i | !(0 <= i < n1 && k1 <= i < n1 + k1)
      ensures RowSums(f, n2)(i) == 0.0
    {
      SumLinear(n2, Row(f, i), Row(f, i), Row(f, i), 0.0, 0.0);
    }
    SumShift(n1, k1, RowSums(f, n2));
  }

  /** f read backwards over [0, n). */
  function Reversed(f: int -> real, n: int): int -> real
  {
    i => f(n - 1 - i)
  }

  lemma {:induction false} SumReverse(n: nat, f: int -> real)
    ensures Sum(n, Reversed(f, n)) == Sum(n, f)
  {
    if n > 0 {
      var f1 := Shifted(f, 1);
      SumReverse(n - 1, f1);
      SumCongruent(n - 1, Reversed(f, n), Reversed(f1, n - 1));
      SumShiftOne(n - 1, f);
    }
  }

  /** f read backwards in both indices over [0, n1) x [0, n2). */
  function Reversed2(f: (int, int) -> real, n1: int, n2: int): (int, int) -> real
  {
    (i, j) => f(n1 - 1 - i, n2 - 1 - j)
  }

  lemma {:induction false} Sum2Reverse(n1: nat, n2: nat, f: (int, int) -> real)
    ensures Sum2(n1, n2, Reversed2(f, n1, n2)) == Sum2(n1, n2, f)
  {
    var g := Reversed2(f, n1, n2);
    Sum2IsSumOfRows(n1, n2, g);
    Sum2IsSumOfRows(n1, n2, f);
    forall i | 0 <= i < n1
      ensures RowSums(g, n2)(i) == Reversed(RowSums(f, n2), n1)(i)
    {
      SumCongruent(n2, Row(g, i), Reversed(Row(f, n1 - 1 - i), n2));
      SumReverse(n2, Row(f, n1 - 1 - i));
    }
    SumCongruent(n1, RowSums(g, n2), Reversed(RowSums(f, n2), n1));
    SumReverse(n1, RowSums(f, n2));
  }

  /** Plane sums of a three-index term. */
  function PlaneSums(f: (int, int, int) -> real, n2: nat, n3: nat): int -> real
  {
    i => Sum2(n2, n3, Plane(f, i))
  }

  lemma {:induction false} Sum3IsSumOfPlanes(n1: nat, n2: nat, n3: nat, f: (int, int, int) -> real)
    ensures Sum3(n1, n2, n3, f) == Sum(n1, PlaneSums(f, n2, n3))
  {
    if n1 > 0 {
      Sum3IsSumOfPlanes(n1 - 1, n2, n3, f);
    }
  }

  /** For a four-index term F: the (i, j) term for outer index (r1, r2), and the (r1, r2)
      term for inner index (i, j). */
  function Cross(F: (int, int, int, int) -> real, r1: int, r2: int): (int, int) -> real
  {
    (i, j) => F(r1, r2, i, j)
  }

  function Across(F: (int, int, int, int) -> real, i: int, j: int): (int, int) -> real
  {
    (r1, r2) => F(r1, r2, i, j)
  }

  function InnerSum2(F: (int, int, int, int) -> real, m1: nat, m2: nat): (int, int) -> real
  {
    (r1, r2) => Sum2(m1, m2, Cross(F, r1, r2))
  }

  function OuterSum2(F: (int, int, int, int) -> real, n1: nat, n2: nat): (int, int) -> real
  {
    (i, j) => Sum2(n1, n2, Across(F, i, j))
  }

  /** A double sum of double sums may be taken in either order. */
  lemma {:induction false} Sum22Swap(n1: nat, n2: nat, m1: nat, m2: nat, F: (int, int, int, int) -> real)
    ensures Sum2(n1, n2, InnerSum2(F, m1, m2)) == Sum2(m1, m2, OuterSum2(F, n1, n2))
  {
    if m1 == 0 {
      Sum2Zero(n1, n2, InnerSum2(F, 0, m2));
    } else {
      Sum22Swap(n1, n2, m1 - 1, m2, F);
      var f := (r1, r2, j) => F(r1, r2, m1 - 1, j);
      assert Sum2(n1, n2, InnerSum2(F, m1, m2)) == Sum2(n1, n2, InnerSum2(F, m1 - 1, m2)) + Sum2(n1, n2, Inner(f, m2)) by {
        forall r1, r2 | 0 <= r1 < n1 && 0 <= r2 < n2
          ensures InnerSum2(F, m1, m2)(r1, r2) == 1.0 * InnerSum2(F, m1 - 1, m2)(r1, r2) + 1.0 * Inner(f, m2)(r1, r2)
        {
          SumCongruent(m2, Row(Cross(F, r1, r2), m1 - 1), Fiber(f, r1, r2));
        }
        Sum2Linear(n1, n2, InnerSum2(F, m1 - 1, m2), Inner(f, m2), InnerSum2(F, m1, m2), 1.0, 1.0);
      }
      assert Sum(m2, Outer(f, n1, n2)) == Sum(m2, Row(OuterSum2(F, n1, n2), m1 - 1)) by {
        forall j | 0 <= j < m2
          ensures Outer(f, n1, n2)(j) == Row(OuterSum2(F, n1, n2), m1 - 1)(j)
        {
          Sum2Congruent(n1, n2, Slice(f, j), Across(F, m1 - 1, j));
        }
        SumCongruent(m2, Outer(f, n1, n2), Row(OuterSum2(F, n1, n2), m1 - 1));
      }
      Sum2Swap(n1, n2, m2, f);
    }
  }
}
