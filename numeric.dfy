/** The two clamped elementwise primitives of the network (the sigmoid and the safe
    logarithm), over exact reals. The exponential and the logarithm are not definable
    on `real`, so every member that needs them takes them as a pair of functions and
    assumes only the laws the real functions satisfy (see `Lawful`). */
module Numeric {

  /** A candidate pair (exp, log). */
  datatype ExpLog = ExpLog(exp: real -> real, log: real -> real)

  /** The laws of the real exponential and logarithm that the model relies on:
      exp is positive, below 1 exactly for negative arguments, exp(0) = 1, and log
      inverts it on the positive reals. */
  ghost predicate Lawful(e: ExpLog) {
    && ExpPositive(e)
    && LogInvertsExp(e)
    && ExpInvertsLog(e)
    && e.exp(0.0) == 1.0
    && (forall y :: e.exp(y) < 1.0 <==> y < 0.0)
  }

  ghost predicate ExpPositive(e: ExpLog) {
    forall y :: e.exp(y) > 0.0
  }

  /** log(exp(y)) = y for every y. */
  ghost predicate LogInvertsExp(e: ExpLog) {
    forall y :: e.log(e.exp(y)) == y
  }

  /** exp(log(x)) = x for every positive x. */
  ghost predicate ExpInvertsLog(e: ExpLog) {
    forall x :: x > 0.0 ==> e.exp(e.log(x)) == x
  }

  /** Excitations at or below this value give a sigmoid activation of exactly 0. */
  const SigmoidFloor: real := -100.0

  /** `safe_log_min = exp(-100)`: arguments at or below it give a logarithm of 0. */
  function SafeLogMin(e: ExpLog): (m: real)
    ensures Lawful(e) ==> 0.0 < m < 1.0
  {
    e.exp(-100.0)
  }

  /** `sigmoid`, for one entry: 1/(1+exp(-xi)) above the floor, exactly 0 at or below it. */
  function Sigmoid(e: ExpLog, xi: real): (r: real)
    requires Lawful(e)
    ensures 0.0 <= r < 1.0
    ensures r == 0.0 <==> xi <= SigmoidFloor
    ensures xi > SigmoidFloor ==> r * (1.0 + e.exp(-xi)) == 1.0
  {
    if xi > SigmoidFloor then
      var d := 1.0 + e.exp(-xi);
      assert d > 1.0;
      var r := 1.0 / d;
      assert r * d == 1.0;
      assert r > 0.0;
      r
    else
      0.0
  }

  /** `safe_log`, for one entry: log(x) above `safe_log_min`, exactly 0 at or below it.
      For a lawful (exp, log), above the threshold the result is the exponent that gives
      back x, and it is never positive for x <= 1. */
  function SafeLog(e: ExpLog, x: real): (r: real)
    ensures Lawful(e) && x > SafeLogMin(e) ==> e.exp(r) == x
    ensures x <= SafeLogMin(e) ==> r == 0.0
    ensures Lawful(e) && x <= 1.0 ==> r <= 0.0
  {
    if x > SafeLogMin(e) then
      e.log(x)
    else
      0.0
  }

  /** The logarithm of 1 is 0: an exact prediction of a label contributes nothing
      to the cross-entropy. */
  lemma SafeLogOfOne(e: ExpLog)
    requires Lawful(e)
    ensures SafeLog(e, 1.0) == 0.0
  {
    assert e.log(e.exp(0.0)) == 0.0;
  }
}
