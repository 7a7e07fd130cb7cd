/** `loss`: the two training losses of one image. The classification loss is the binary
    cross-entropy of the face scores, averaged over every cell and anchor. The regression
    loss is half the squared error of the box targets, weighted by the face labels and
    divided by their sum. */
module Loss {
  import opened Numeric
  import opened Sums
  import opened Tensors

  datatype Option<T> = None | Some(value: T)

  /** `np.linalg.norm(Y[n1, n2, a, 0:4] - Yhat[n1, n2, a, 0:4])**2`: never negative, and
      zero when the two regression targets agree. */
  function SquaredError(y: Tensor4, yh: Tensor4, n1: int, n2: int, a: int): (r: real)
    ensures r >= 0.0
    ensures (forall c :: 0 <= c < 4 ==> y.At(n1, n2, a, c) == yh.At(n1, n2, a, c)) ==> r == 0.0
  {
    var d0 := y.At(n1, n2, a, 0) - yh.At(n1, n2, a, 0);
    var d1 := y.At(n1, n2, a, 1) - yh.At(n1, n2, a, 1);
    var d2 := y.At(n1, n2, a, 2) - yh.At(n1, n2, a, 2);
    var d3 := y.At(n1, n2, a, 3) - yh.At(n1, n2, a, 3);
    Square(d0);
    Square(d1);
    Square(d2);
    Square(d3);
    d0 * d0 + d1 * d1 + d2 * d2 + d3 * d3
  }

  lemma Square(d: real)
    ensures d * d >= 0.0
  {
    if d < 0.0 {
      assert d * d == (-d) * (-d);
    }
  }

  /** The face label `Y[n1, n2, a, 4]`. */
  function Label(y: Tensor4): (int, int, int) -> real {
    (n1, n2, a) => y.At(n1, n2, a, 4)
  }

  /** The term added to `num_mse` at (n1, n2, a). */
  function MseTerm(y: Tensor4, yh: Tensor4): (int, int, int) -> real {
    (n1, n2, a) => y.At(n1, n2, a, 4) * SquaredError(y, yh, n1, n2, a)
  }

  /** The term added to `num_bce` at (n1, n2, a). */
  function BceTerm(e: ExpLog, y: Tensor4, yh: Tensor4): (int, int, int) -> real {
    (n1, n2, a) => y.At(n1, n2, a, 4) * SafeLog(e, yh.At(n1, n2, a, 4))
                   + (1.0 - y.At(n1, n2, a, 4)) * SafeLog(e, 1.0 - yh.At(n1, n2, a, 4))
  }

  /** The number of positions averaged over by the cross-entropy. */
  function GridSize(n1: nat, n2: nat, na: nat): (n: real)
    requires 0 < n1 && 0 < n2 && 0 < na
    ensures n >= 1.0
  {
    var n := n1 * n2 * na;
    assert n1 * n2 >= 1 && n >= n1 * n2;
    n as real
  }

  /** `L_bce = -num_bce / (N1 * N2 * NA)`. */
  function Bce(e: ExpLog, y: Tensor4, yh: Tensor4): real
    requires 0 < y.d0 && 0 < y.d1 && 0 < y.d2
  {
    -Sum3(y.d0, y.d1, y.d2, BceTerm(e, y, yh)) / GridSize(y.d0, y.d1, y.d2)
  }

  /** `L_mse = 0.5 * (num_mse / den_mse)` as the source computes it: without positive
      labels the division is by zero and there is no value. */
  function MseAsWritten(y: Tensor4, yh: Tensor4): Option<real> {
    var den := Sum3(y.d0, y.d1, y.d2, Label(y));
    if den == 0.0 then None else Some(0.5 * (Sum3(y.d0, y.d1, y.d2, MseTerm(y, yh)) / den))
  }

  /** The regression loss as documented: 0 when there are no positive labels. */
  function Mse(y: Tensor4, yh: Tensor4): real {
    var den := Sum3(y.d0, y.d1, y.d2, Label(y));
    if den == 0.0 then 0.0 else 0.5 * (Sum3(y.d0, y.d1, y.d2, MseTerm(y, yh)) / den)
  }

  /** Along one grid axis of lengths n (Y) and nHat (Yhat), `Y[:,:,:,0:4] - Yhat[:,:,:,0:4]`
      broadcasts and every index the loops read from Yhat exists: the lengths are equal,
      or Y's is 1 and Yhat's is not 0. */
  predicate AxisFits(n: nat, nHat: nat)
  {
    n == nHat || n == 1 <= nHat
  }

  /** `loss(Yhat, Y)`: the pair (L_bce, L_mse). The grid must not be empty, since the
      cross-entropy divides by its size, and the grid axes must fit as `AxisFits` says,
      since the unused difference `mse` is computed before the loops. */
  method Loss(e: ExpLog, Yhat: array4<real>, Y: array4<real>) returns (bceLoss: real, mseLoss: real)
    requires 0 < Y.Length0 && 0 < Y.Length1 && 0 < Y.Length2 && 5 <= Y.Length3 && 5 <= Yhat.Length3
    requires AxisFits(Y.Length0, Yhat.Length0) && AxisFits(Y.Length1, Yhat.Length1) && AxisFits(Y.Length2, Yhat.Length2)
    ensures bceLoss == Bce(e, Snap4(Y), Snap4(Yhat))
    ensures mseLoss == Mse(Snap4(Y), Snap4(Yhat))
  {
    ghost var y, yh := Snap4(Y), Snap4(Yhat);
    var numMse, denMse, numBce := LossSums(e, Yhat, Y, y, yh);
    var denBce := GridSize(Y.Length0, Y.Length1, Y.Length2);
    mseLoss := if denMse == 0.0 then 0.0 else 0.5 * (numMse / denMse);
    bceLoss := -numBce / denBce;
    LossesFromTotals(e, y, yh, numMse, denMse, numBce);
  }

  lemma LossesFromTotals(e: ExpLog, y: Tensor4, yh: Tensor4, numMse: real, denMse: real, numBce: real)
    requires 0 < y.d0 && 0 < y.d1 && 0 < y.d2
    requires numMse == Sum3(y.d0, y.d1, y.d2, MseTerm(y, yh))
    requires denMse == Sum3(y.d0, y.d1, y.d2, Label(y))
    requires numBce == Sum3(y.d0, y.d1, y.d2, BceTerm(e, y, yh))
    ensures -numBce / GridSize(y.d0, y.d1, y.d2) == Bce(e, y, yh)
    ensures (if denMse == 0.0 then 0.0 else 0.5 * (numMse / denMse)) == Mse(y, yh)
  {
  }

  /** The three loops of `loss`, keeping the running totals `num_mse`, `den_mse` and
      `num_bce`. */
  method LossSums(e: ExpLog, Yhat: array4<real>, Y: array4<real>, ghost y: Tensor4, ghost yh: Tensor4)
    returns (numMse: real, denMse: real, numBce: real)
    requires Views4(y, Y) && Views4(yh, Yhat)
    requires Y.Length0 <= Yhat.Length0 && Y.Length1 <= Yhat.Length1 && Y.Length2 <= Yhat.Length2
    requires 5 <= Y.Length3 && 5 <= Yhat.Length3
    ensures numMse == Sum3(Y.Length0, Y.Length1, Y.Length2, MseTerm(y, yh))
    ensures denMse == Sum3(Y.Length0, Y.Length1, Y.Length2, Label(y))
    ensures numBce == Sum3(Y.Length0, Y.Length1, Y.Length2, BceTerm(e, y, yh))
  {
    numMse, denMse, numBce := 0.0, 0.0, 0.0;
    for n1 := 0 to Y.Length0
      invariant numMse == Sum3(n1, Y.Length1, Y.Length2, MseTerm(y, yh))
      invariant denMse == Sum3(n1, Y.Length1, Y.Length2, Label(y))
      invariant numBce == Sum3(n1, Y.Length1, Y.Length2, BceTerm(e, y, yh))
    {
      numMse, denMse, numBce := LossRow(e, Yhat, Y, n1, numMse, denMse, numBce, y, yh);
    }
  }

  /** The loops over n2 and a for one n1, adding to the running totals. */
  method LossRow(e: ExpLog, Yhat: array4<real>, Y: array4<real>, n1: nat, numMse0: real, denMse0: real, numBce0: real,
                 ghost y: Tensor4, ghost yh: Tensor4)
    returns (numMse: real, denMse: real, numBce: real)
    requires Views4(y, Y) && Views4(yh, Yhat)
    requires n1 < Y.Length0 <= Yhat.Length0 && Y.Length1 <= Yhat.Length1 && Y.Length2 <= Yhat.Length2
    requires 5 <= Y.Length3 && 5 <= Yhat.Length3
    ensures numMse == numMse0 + Sum2(Y.Length1, Y.Length2, Plane(MseTerm(y, yh), n1))
    ensures denMse == denMse0 + Sum2(Y.Length1, Y.Length2, Plane(Label(y), n1))
    ensures numBce == numBce0 + Sum2(Y.Length1, Y.Length2, Plane(BceTerm(e, y, yh), n1))
  {
    numMse, denMse, numBce := numMse0, denMse0, numBce0;
    for n2 := 0 to Y.Length1
      invariant numMse == numMse0 + Sum2(n2, Y.Length2, Plane(MseTerm(y, yh), n1))
      invariant denMse == denMse0 + Sum2(n2, Y.Length2, Plane(Label(y), n1))
      invariant numBce == numBce0 + Sum2(n2, Y.Length2, Plane(BceTerm(e, y, yh), n1))
    {
      numMse, denMse, numBce := LossCell(e, Yhat, Y, n1, n2, numMse, denMse, numBce, y, yh);
    }
  }

  /** The loop over anchors a of cell (n1, n2), adding to the running totals. */
  method LossCell(e: ExpLog, Yhat: array4<real>, Y: array4<real>, n1: nat, n2: nat, numMse0: real, denMse0: real, numBce0: real,
                  ghost y: Tensor4, ghost yh: Tensor4)
    returns (numMse: real, denMse: real, numBce: real)
    requires Views4(y, Y) && Views4(yh, Yhat)
    requires n1 < Y.Length0 <= Yhat.Length0 && n2 < Y.Length1 <= Yhat.Length1 && Y.Length2 <= Yhat.Length2
    requires 5 <= Y.Length3 && 5 <= Yhat.Length3
    ensures numMse == numMse0 + Sum(Y.Length2, Row(Plane(MseTerm(y, yh), n1), n2))
    ensures denMse == denMse0 + Sum(Y.Length2, Row(Plane(Label(y), n1), n2))
    ensures numBce == numBce0 + Sum(Y.Length2, Row(Plane(BceTerm(e, y, yh), n1), n2))
  {
    numMse, denMse, numBce := numMse0, denMse0, numBce0;
    for a := 0 to Y.Length2
      invariant numMse == numMse0 + Sum(a, Row(Plane(MseTerm(y, yh), n1), n2))
      invariant denMse == denMse0 + Sum(a, Row(Plane(Label(y), n1), n2))
      invariant numBce == numBce0 + Sum(a, Row(Plane(BceTerm(e, y, yh), n1), n2))
    {
      var mse, target, bce := Terms(e, Yhat, Y, n1, n2, a, y, yh);
      numMse := numMse + mse;
      denMse := denMse + target;
      numBce := numBce + bce;
    }
  }

  /** The three terms the loop body adds at (n1, n2, a):
      `Y[n1,n2,a,4] * norm(Y[n1,n2,a,0:4] - Yhat[n1,n2,a,0:4])**2`, `Y[n1,n2,a,4]` and
      `Y[n1,n2,a,4] * safe_log(Yhat[n1,n2,a,4]) + (1 - Y[n1,n2,a,4]) * safe_log(1 - Yhat[n1,n2,a,4])`. */
  method Terms(e: ExpLog, Yhat: array4<real>, Y: array4<real>, n1: nat, n2: nat, a: nat, ghost y: Tensor4, ghost yh: Tensor4)
    returns (mse: real, target: real, bce: real)
    requires Views4(y, Y) && Views4(yh, Yhat)
    requires n1 < Y.Length0 <= Yhat.Length0 && n2 < Y.Length1 <= Yhat.Length1 && a < Y.Length2 <= Yhat.Length2
    requires 5 <= Y.Length3 && 5 <= Yhat.Length3
    ensures mse == MseTerm(y, yh)(n1, n2, a) && target == Label(y)(n1, n2, a) && bce == BceTerm(e, y, yh)(n1, n2, a)
  {
    target := Y[n1, n2, a, 4];
    var d0 := Y[n1, n2, a, 0] - Yhat[n1, n2, a, 0];
    var d1 := Y[n1, n2, a, 1] - Yhat[n1, n2, a, 1];
    var d2 := Y[n1, n2, a, 2] - Yhat[n1, n2, a, 2];
    var d3 := Y[n1, n2, a, 3] - Yhat[n1, n2, a, 3];
    mse := target * (d0 * d0 + d1 * d1 + d2 * d2 + d3 * d3);
    bce := target * SafeLog(e, Yhat[n1, n2, a, 4]) + (1.0 - target) * SafeLog(e, 1.0 - Yhat[n1, n2, a, 4]);
  }

  /** With labels and scores in [0, 1] (the scores are sigmoids), every cross-entropy
      term is at most 0, so the classification loss is non-negative. */
  lemma BceNonnegative(e: ExpLog, y: Tensor4, yh: Tensor4)
    requires Lawful(e)
    requires 0 < y.d0 && 0 < y.d1 && 0 < y.d2
    requires forall n1, n2, a :: 0 <= n1 < y.d0 && 0 <= n2 < y.d1 && 0 <= a < y.d2 ==>
               0.0 <= y.At(n1, n2, a, 4) <= 1.0 && 0.0 <= yh.At(n1, n2, a, 4) <= 1.0
    ensures Bce(e, y, yh) >= 0.0
  {
    var f := BceTerm(e, y, yh);
    forall n1, n2, a | 0 <= n1 < y.d0 && 0 <= n2 < y.d1 && 0 <= a < y.d2
      ensures f(n1, n2, a) <= 0.0
    {
      var l, p := y.At(n1, n2, a, 4), yh.At(n1, n2, a, 4);
      NonnegativeTimesNonpositive(l, SafeLog(e, p));
      NonnegativeTimesNonpositive(1.0 - l, SafeLog(e, 1.0 - p));
    }
    Sum3Nonpositive(y.d0, y.d1, y.d2, f);
    var s := Sum3(y.d0, y.d1, y.d2, f);
    assert -s >= 0.0;
  }

  lemma NonnegativeTimesNonpositive(a: real, b: real)
    requires a >= 0.0 && b <= 0.0
    ensures a * b <= 0.0
  {
  }

  /** With non-negative labels the regression loss is non-negative. */
  lemma MseNonnegative(y: Tensor4, yh: Tensor4)
    requires forall n1, n2, a :: 0 <= n1 < y.d0 && 0 <= n2 < y.d1 && 0 <= a < y.d2 ==> y.At(n1, n2, a, 4) >= 0.0
    ensures Mse(y, yh) >= 0.0
  {
    Sum3Nonnegative(y.d0, y.d1, y.d2, Label(y));
    var f := MseTerm(y, yh);
    forall n1, n2, a | 0 <= n1 < y.d0 && 0 <= n2 < y.d1 && 0 <= a < y.d2
      ensures f(n1, n2, a) >= 0.0
    {
      assert SquaredError(y, yh, n1, n2, a) >= 0.0;
    }
    Sum3Nonnegative(y.d0, y.d1, y.d2, f);
  }

  /** The regression loss only looks at positions with a non-zero label: outputs that
      differ only in the boxes of unlabelled positions (and in the scores) have the same
      regression loss. */
  lemma MseIgnoresUnlabelled(y: Tensor4, yh1: Tensor4, yh2: Tensor4)
    requires forall n1, n2, a :: 0 <= n1 < y.d0 && 0 <= n2 < y.d1 && 0 <= a < y.d2 && y.At(n1, n2, a, 4) != 0.0 ==>
               forall c :: 0 <= c < 4 ==> yh1.At(n1, n2, a, c) == yh2.At(n1, n2, a, c)
    ensures Mse(y, yh1) == Mse(y, yh2)
  {
    var f, g := MseTerm(y, yh1), MseTerm(y, yh2);
    forall n1, n2, a | 0 <= n1 < y.d0 && 0 <= n2 < y.d1 && 0 <= a < y.d2
      ensures f(n1, n2, a) == g(n1, n2, a)
    {
      if y.At(n1, n2, a, 4) != 0.0 {
        assert SquaredError(y, yh1, n1, n2, a) == SquaredError(y, yh2, n1, n2, a);
      }
    }
    Sum3Congruent(y.d0, y.d1, y.d2, f, g);
  }

  /** A perfect prediction of binary labels costs nothing: both losses are 0. */
  lemma PerfectPredictionCostsNothing(e: ExpLog, y: Tensor4)
    requires Lawful(e)
    requires 0 < y.d0 && 0 < y.d1 && 0 < y.d2
    requires forall n1, n2, a :: 0 <= n1 < y.d0 && 0 <= n2 < y.d1 && 0 <= a < y.d2 ==>
               y.At(n1, n2, a, 4) == 0.0 || y.At(n1, n2, a, 4) == 1.0
    ensures Bce(e, y, y) == 0.0 && Mse(y, y) == 0.0
  {
    SafeLogOfOne(e);
    var f := BceTerm(e, y, y);
    forall n1, n2, a | 0 <= n1 < y.d0 && 0 <= n2 < y.d1 && 0 <= a < y.d2
      ensures f(n1, n2, a) == 0.0
    {
      if y.At(n1, n2, a, 4) == 0.0 {
        assert f(n1, n2, a) == SafeLog(e, 1.0);
      } else {
        assert f(n1, n2, a) == SafeLog(e, 1.0) + 0.0 * SafeLog(e, 0.0);
      }
    }
    Sum3Zero(y.d0, y.d1, y.d2, f);
    var g := MseTerm(y, y);
    forall n1, n2, a | 0 <= n1 < y.d0 && 0 <= n2 < y.d1 && 0 <= a < y.d2
      ensures g(n1, n2, a) == 0.0
    {
      assert SquaredError(y, y, n1, n2, a) == 0.0;
    }
    Sum3Zero(y.d0, y.d1, y.d2, g);
  }

  /** Where the label sum is not zero, the regression loss is the value the source
      computes. */
  lemma MseAgreesWhenDefined(y: Tensor4, yh: Tensor4)
    requires Sum3(y.d0, y.d1, y.d2, Label(y)) != 0.0
    ensures MseAsWritten(y, yh) == Some(Mse(y, yh))
  {
  }

  /** Without positive labels the source divides 0 by 0, while the documented loss is 0. */
  lemma MseWithoutPositives(y: Tensor4, yh: Tensor4)
    requires forall n1, n2, a :: 0 <= n1 < y.d0 && 0 <= n2 < y.d1 && 0 <= a < y.d2 ==> y.At(n1, n2, a, 4) == 0.0
    ensures MseAsWritten(y, yh) == None
    ensures Mse(y, yh) == 0.0
  {
    Sum3Zero(y.d0, y.d1, y.d2, Label(y));
  }
}
