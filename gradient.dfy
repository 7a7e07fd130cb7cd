/** `backprop`, `weight_gradient` and `weight_update`: the gradients the training loop
    carries back through the two layers, and the gradient step on the weights. */
module Gradient {
  import opened Sums
  import opened Tensors
  import opened Conv
  import opened Forward

  // ---------------------------------------------------------------------------
  // backprop
  // ---------------------------------------------------------------------------

  /** Term (a, k) of `np.sum(GradXi2[n1, n2, :, :] * W2[0, 0, d, :, :])`. */
  function BackTerm(g2: Tensor4, w2: Tensor5, n1: int, n2: int, d: int): (int, int) -> real
  {
    (a, k) => g2.At(n1, n2, a, k) * w2.At(0, 0, d, a, k)
  }

  /** `GradXi1[n1, n2, d]`: the second-layer gradient carried back through W2 where the
      hidden unit is active (H > 0), and 0 where it is not. */
  function GradHidden(h: Tensor3, g2: Tensor4, w2: Tensor5, n1: int, n2: int, d: int): real
  {
    if h.At(n1, n2, d) > 0.0 then Sum2(g2.d2, g2.d3, BackTerm(g2, w2, n1, n2, d)) else 0.0
  }

  /** `backprop(Y, Yhat, H, W2)`. GradXi2 is `Yhat - Y`, entry by entry; GradXi1 starts as
      zeros and, at every hidden unit with H > 0, receives the sum over anchors and output
      channels of GradXi2 times the matching second-layer weight. The arrays must have
      the shapes the source indexes them with: Y and Yhat alike, H's grid inside Y's,
      and W2 of shape (>= 1, >= 1, >= ND, NA, NY). */
  method Backprop(Y: array4<real>, Yhat: array4<real>, H: array3<real>, W2: array5<real>)
    returns (GradXi1: array3<real>, GradXi2: array4<real>)
    requires Yhat.Length0 == Y.Length0 && Yhat.Length1 == Y.Length1
    requires Yhat.Length2 == Y.Length2 && Yhat.Length3 == Y.Length3
    requires H.Length0 <= Y.Length0 && H.Length1 <= Y.Length1
    requires 1 <= W2.Length0 && 1 <= W2.Length1 && H.Length2 <= W2.Length2
    requires W2.Length3 == Y.Length2 && W2.Length4 == Y.Length3
    ensures GradXi2.Length0 == Y.Length0 && GradXi2.Length1 == Y.Length1
    ensures GradXi2.Length2 == Y.Length2 && GradXi2.Length3 == Y.Length3
    ensures forall i, j, a, k :: 0 <= i < Y.Length0 && 0 <= j < Y.Length1 && 0 <= a < Y.Length2 && 0 <= k < Y.Length3 ==>
              GradXi2[i, j, a, k] == Yhat[i, j, a, k] - Y[i, j, a, k]
    ensures GradXi1.Length0 == H.Length0 && GradXi1.Length1 == H.Length1 && GradXi1.Length2 == H.Length2
    ensures forall i, j, d :: 0 <= i < H.Length0 && 0 <= j < H.Length1 && 0 <= d < H.Length2 ==>
              GradXi1[i, j, d] == GradHidden(Snap3(H), Snap4(GradXi2), Snap5(W2), i, j, d)
    ensures forall i, j, d :: 0 <= i < H.Length0 && 0 <= j < H.Length1 && 0 <= d < H.Length2 && H[i, j, d] <= 0.0 ==>
              GradXi1[i, j, d] == 0.0
  {
    GradXi2 := new real[Y.Length0, Y.Length1, Y.Length2, Y.Length3](
                 (i, j, a, k) requires 0 <= i < Y.Length0 && 0 <= j < Y.Length1 && 0 <= a < Y.Length2 && 0 <= k < Y.Length3
                              reads Y, Yhat =>
                   Yhat[i, j, a, k] - Y[i, j, a, k]);
    ghost var h, g2, w2 := Snap3(H), Snap4(GradXi2), Snap5(W2);
    GradXi1 := new real[H.Length0, H.Length1, H.Length2]((i, j, d) => 0.0);
    for n1 := 0 to H.Length0
      modifies GradXi1
      invariant forall i, j, d :: 0 <= i < H.Length0 && 0 <= j < H.Length1 && 0 <= d < H.Length2 ==>
                  GradXi1[i, j, d] == if i < n1 then GradHidden(h, g2, w2, i, j, d) else 0.0
    {
      BackRow(GradXi1, GradXi2, H, W2, n1, h, g2, w2);
    }
  }

  /** The loop over n2 for one n1 of `backprop`. */
  method BackRow(GradXi1: array3<real>, GradXi2: array4<real>, H: array3<real>, W2: array5<real>, n1: nat,
                 ghost h: Tensor3, ghost g2: Tensor4, ghost w2: Tensor5)
    modifies GradXi1
    requires GradXi1 != H && Views3(h, H) && Views4(g2, GradXi2) && Views5(w2, W2)
    requires GradXi1.Length0 == H.Length0 && GradXi1.Length1 == H.Length1 && GradXi1.Length2 == H.Length2
    requires n1 < H.Length0 && H.Length1 <= GradXi2.Length1 && H.Length0 <= GradXi2.Length0
    requires 1 <= W2.Length0 && 1 <= W2.Length1 && H.Length2 <= W2.Length2
    requires W2.Length3 == GradXi2.Length2 && W2.Length4 == GradXi2.Length3
    requires forall j, d :: 0 <= j < H.Length1 && 0 <= d < H.Length2 ==> GradXi1[n1, j, d] == 0.0
    ensures forall i, j, d :: 0 <= i < H.Length0 && 0 <= j < H.Length1 && 0 <= d < H.Length2 ==>
              GradXi1[i, j, d] == if i == n1 then GradHidden(h, g2, w2, i, j, d) else old(GradXi1[i, j, d])
  {
    for n2 := 0 to H.Length1
      invariant forall i, j, d :: 0 <= i < H.Length0 && 0 <= j < H.Length1 && 0 <= d < H.Length2 ==>
                  GradXi1[i, j, d] == if i == n1 && j < n2 then GradHidden(h, g2, w2, i, j, d) else old(GradXi1[i, j, d])
    {
      BackCell(GradXi1, GradXi2, H, W2, n1, n2, h, g2, w2);
    }
  }

  /** The loop over the hidden channels of one cell: only active units are written. */
  method BackCell(GradXi1: array3<real>, GradXi2: array4<real>, H: array3<real>, W2: array5<real>, n1: nat, n2: nat,
                  ghost h: Tensor3, ghost g2: Tensor4, ghost w2: Tensor5)
    modifies GradXi1
    requires GradXi1 != H && Views3(h, H) && Views4(g2, GradXi2) && Views5(w2, W2)
    requires GradXi1.Length0 == H.Length0 && GradXi1.Length1 == H.Length1 && GradXi1.Length2 == H.Length2
    requires n1 < H.Length0 && n2 < H.Length1 && H.Length1 <= GradXi2.Length1 && H.Length0 <= GradXi2.Length0
    requires 1 <= W2.Length0 && 1 <= W2.Length1 && H.Length2 <= W2.Length2
    requires W2.Length3 == GradXi2.Length2 && W2.Length4 == GradXi2.Length3
    requires forall d :: 0 <= d < H.Length2 ==> GradXi1[n1, n2, d] == 0.0
    ensures forall i, j, d :: 0 <= i < H.Length0 && 0 <= j < H.Length1 && 0 <= d < H.Length2 ==>
              GradXi1[i, j, d] == if i == n1 && j == n2 then GradHidden(h, g2, w2, i, j, d) else old(GradXi1[i, j, d])
  {
    for nd := 0 to H.Length2
      invariant forall i, j, d :: 0 <= i < H.Length0 && 0 <= j < H.Length1 && 0 <= d < H.Length2 ==>
                  GradXi1[i, j, d] == if i == n1 && j == n2 && d < nd then GradHidden(h, g2, w2, i, j, d) else old(GradXi1[i, j, d])
    {
      if H[n1, n2, nd] > 0.0 {
        var s := BackSum(GradXi2, W2, n1, n2, nd, g2, w2);
        GradXi1[n1, n2, nd] := s;
      }
    }
  }

  /** `np.sum(GradXi2[n1, n2, :, :] * W2[0, 0, d, :, :])`, anchor by anchor. */
  method BackSum(GradXi2: array4<real>, W2: array5<real>, n1: nat, n2: nat, d: nat,
                 ghost g2: Tensor4, ghost w2: Tensor5) returns (s: real)
    requires Views4(g2, GradXi2) && Views5(w2, W2)
    requires n1 < GradXi2.Length0 && n2 < GradXi2.Length1
    requires 1 <= W2.Length0 && 1 <= W2.Length1 && d < W2.Length2
    requires W2.Length3 == GradXi2.Length2 && W2.Length4 == GradXi2.Length3
    ensures s == Sum2(g2.d2, g2.d3, BackTerm(g2, w2, n1, n2, d))
  {
    s := 0.0;
    for a := 0 to GradXi2.Length2
      invariant s == Sum2(a, g2.d3, BackTerm(g2, w2, n1, n2, d))
    {
      s := BackAnchorSum(GradXi2, W2, n1, n2, d, a, s, g2, w2);
    }
  }

  method BackAnchorSum(GradXi2: array4<real>, W2: array5<real>, n1: nat, n2: nat, d: nat, a: nat, s0: real,
                       ghost g2: Tensor4, ghost w2: Tensor5) returns (s: real)
    requires Views4(g2, GradXi2) && Views5(w2, W2)
    requires n1 < GradXi2.Length0 && n2 < GradXi2.Length1 && a < GradXi2.Length2
    requires 1 <= W2.Length0 && 1 <= W2.Length1 && d < W2.Length2
    requires W2.Length3 == GradXi2.Length2 && W2.Length4 == GradXi2.Length3
    ensures s == s0 + Sum(g2.d3, Row(BackTerm(g2, w2, n1, n2, d), a))
  {
    s := s0;
    for k := 0 to GradXi2.Length3
      invariant s == s0 + Sum(k, Row(BackTerm(g2, w2, n1, n2, d), a))
    {
      s := s + GradXi2[n1, n2, a, k] * W2[0, 0, d, a, k];
    }
  }

  /** Term (a, k, d) of the pairing of GradXi2 with the second-layer excitations at one
      cell: GradXi2[n1, n2, a, k] * H[n1, n2, d] * W2[0, 0, d, a, k]. */
  function CellTriple(h: Tensor3, g2: Tensor4, w2: Tensor5, n1: int, n2: int): (int, int, int) -> real
  {
    (a, k, d) => g2.At(n1, n2, a, k) * ProjTerm(h, w2, n1, n2, a, k)(d)
  }

  /** Term (a, k) of the pairing of GradXi2 with the second-layer excitations at one cell. */
  function CellPairing(h: Tensor3, g2: Tensor4, w2: Tensor5, n1: int, n2: int): (int, int) -> real
  {
    (a, k) => g2.At(n1, n2, a, k) * Excitation2(h, w2, n1, n2, a, k)
  }

  /** Term d of the pairing of the hidden activations with GradXi1 at one cell. */
  function HiddenPairing(h: Tensor3, g2: Tensor4, w2: Tensor5, n1: int, n2: int): int -> real
  {
    d => h.At(n1, n2, d) * GradHidden(h, g2, w2, n1, n2, d)
  }

  /** GradXi1 is the transpose of the second layer: for non-negative hidden activations (as
      ReLU makes them), pairing GradXi2 with the excitations `Xi_2 = H W2` at a cell equals
      pairing H with GradXi1 there. GradXi1 is therefore the coefficient of each H entry in
      that pairing, and the gating on H > 0 changes nothing where H is 0. */
  lemma {:induction false} GradHiddenIsTranspose(h: Tensor3, g2: Tensor4, w2: Tensor5, n1: int, n2: int)
    requires forall d :: 0 <= d < w2.d2 ==> h.At(n1, n2, d) >= 0.0
    ensures Sum2(g2.d2, g2.d3, CellPairing(h, g2, w2, n1, n2)) == Sum(w2.d2, HiddenPairing(h, g2, w2, n1, n2))
  {
    var f := CellTriple(h, g2, w2, n1, n2);
    CellPairingExpands(h, g2, w2, n1, n2);
    Sum2Swap(g2.d2, g2.d3, w2.d2, f);
    forall d | 0 <= d < w2.d2
      ensures Outer(f, g2.d2, g2.d3)(d) == HiddenPairing(h, g2, w2, n1, n2)(d)
    {
      CellSlice(h, g2, w2, n1, n2, d);
    }
    SumCongruent(w2.d2, Outer(f, g2.d2, g2.d3), HiddenPairing(h, g2, w2, n1, n2));
  }

  /** Multiplying each excitation into GradXi2 spreads over its hidden channels. */
  lemma {:induction false} CellPairingExpands(h: Tensor3, g2: Tensor4, w2: Tensor5, n1: int, n2: int)
    ensures Sum2(g2.d2, g2.d3, CellPairing(h, g2, w2, n1, n2)) == Sum2(g2.d2, g2.d3, Inner(CellTriple(h, g2, w2, n1, n2), w2.d2))
  {
    var f := CellTriple(h, g2, w2, n1, n2);
    forall a, k | 0 <= a < g2.d2 && 0 <= k < g2.d3
      ensures CellPairing(h, g2, w2, n1, n2)(a, k) == Inner(f, w2.d2)(a, k)
    {
      var p := ProjTerm(h, w2, n1, n2, a, k);
      SumLinear(w2.d2, p, p, Fiber(f, a, k), g2.At(n1, n2, a, k), 0.0);
    }
    Sum2Congruent(g2.d2, g2.d3, CellPairing(h, g2, w2, n1, n2), Inner(f, w2.d2));
  }

  /** Hidden channel d's share of the cell pairing is H[n1, n2, d] * GradXi1[n1, n2, d]. */
  lemma {:induction false} CellSlice(h: Tensor3, g2: Tensor4, w2: Tensor5, n1: int, n2: int, d: int)
    requires h.At(n1, n2, d) >= 0.0
    ensures Outer(CellTriple(h, g2, w2, n1, n2), g2.d2, g2.d3)(d) == HiddenPairing(h, g2, w2, n1, n2)(d)
  {
    var f := CellTriple(h, g2, w2, n1, n2);
    var b := BackTerm(g2, w2, n1, n2, d);
    var y := h.At(n1, n2, d);
    forall a, k | 0 <= a < g2.d2 && 0 <= k < g2.d3
      ensures Slice(f, d)(a, k) == y * b(a, k) + 0.0 * b(a, k)
    {
      var x, z := g2.At(n1, n2, a, k), w2.At(0, 0, d, a, k);
      calc {
        Slice(f, d)(a, k);
        x * ProjTerm(h, w2, n1, n2, a, k)(d);
        x * (y * z);
        y * (x * z);
        y * b(a, k) + 0.0 * b(a, k);
      }
    }
    Sum2Linear(g2.d2, g2.d3, b, b, Slice(f, d), y, 0.0);
  }

  /** A prediction that matches its target everywhere at a cell gives no first-layer
      gradient there. */
  lemma {:induction false} NoErrorNoHiddenGradient(h: Tensor3, g2: Tensor4, w2: Tensor5, n1: int, n2: int, d: int)
    requires forall a, k :: 0 <= a < g2.d2 && 0 <= k < g2.d3 ==> g2.At(n1, n2, a, k) == 0.0
    ensures GradHidden(h, g2, w2, n1, n2, d) == 0.0
  {
    var b := BackTerm(g2, w2, n1, n2, d);
    forall a, k | 0 <= a < g2.d2 && 0 <= k < g2.d3
      ensures b(a, k) == 0.0
    {
    }
    Sum2Zero(g2.d2, g2.d3, b);
  }

  // ---------------------------------------------------------------------------
  // weight_gradient
  // ---------------------------------------------------------------------------

  /** Term (n1, n2) of `dW1[m1, m2, c, d]`: GradXi1 shifted by (m1 - 1, m2 - 1) times X, where
      the shifted index lies on X's N1 x N2 grid, and nothing elsewhere. */
  function Dw1Term(g1: Tensor3, x: Tensor3, m1: int, m2: int, c: int, d: int): (int, int) -> real
  {
    (n1, n2) =>
      if 0 <= n1 - (m1 - 1) < x.d0 && 0 <= n2 - (m2 - 1) < x.d1
      then g1.At(n1 - (m1 - 1), n2 - (m2 - 1), d) * x.At(n1, n2, c)
      else 0.0
  }

  /** `dW1[m1, m2, c, d]`: the sum of the guarded terms over X's grid. */
  function Dw1At(g1: Tensor3, x: Tensor3, m1: int, m2: int, c: int, d: int): real
  {
    Sum2(x.d0, x.d1, Dw1Term(g1, x, m1, m2, c, d))
  }

  /** The same term without the guard, reading GradXi1 zero-padded. */
  function Dw1PaddedTerm(g1: Tensor3, x: Tensor3, m1: int, m2: int, c: int, d: int): (int, int) -> real
  {
    (n1, n2) => g1.At(n1 - (m1 - 1), n2 - (m2 - 1), d) * x.At(n1, n2, c)
  }

  /** When GradXi1 has X's grid, the in-range guard is exactly zero padding of GradXi1. */
  lemma {:induction false} Dw1GuardIsPadding(g1: Tensor3, x: Tensor3, m1: int, m2: int, c: int, d: int)
    requires g1.Valid() && g1.d0 == x.d0 && g1.d1 == x.d1
    ensures Dw1At(g1, x, m1, m2, c, d) == Sum2(x.d0, x.d1, Dw1PaddedTerm(g1, x, m1, m2, c, d))
  {
    forall n1, n2 | 0 <= n1 < x.d0 && 0 <= n2 < x.d1
      ensures Dw1Term(g1, x, m1, m2, c, d)(n1, n2) == Dw1PaddedTerm(g1, x, m1, m2, c, d)(n1, n2)
    {
      if !(0 <= n1 - (m1 - 1) < x.d0 && 0 <= n2 - (m2 - 1) < x.d1) {
        assert g1.At(n1 - (m1 - 1), n2 - (m2 - 1), d) == 0.0;
      }
    }
    Sum2Congruent(x.d0, x.d1, Dw1Term(g1, x, m1, m2, c, d), Dw1PaddedTerm(g1, x, m1, m2, c, d));
  }

  /** The corrected `dW1[m1, m2, c, d]`: the source's sum taken at the rotated kernel index
      (M1-1-m1, M2-1-m2). `conv_layer` applies each kernel rotated by 180 degrees, so this
      is the entry whose weight multiplies the products that sum collects
      (`Dw1IsTranspose`); the sum at (m1, m2) itself belongs to the rotated kernel
      (`Dw1OrientationAsWritten`). */
  function Dw1Grad(g1: Tensor3, x: Tensor3, k1: int, k2: int, m1: int, m2: int, c: int, d: int): real
  {
    Dw1At(g1, x, k1 - 1 - m1, k2 - 1 - m2, c, d)
  }

  /** Term (n1, n2) of the pairing of GradXi1 with channel d of `conv_layer(X, W1, 1)`. */
  function LayerPairing(g1: Tensor3, x: Tensor3, w1: Tensor4, d: int): (int, int) -> real
  {
    (n1, n2) => g1.At(n1, n2, d) * ConvLayerAt(x, w1, 1, n1, n2, d)
  }

  /** Term (c, m1, m2) of the pairing of W1[:, :, :, d] with the corrected dW1. */
  function KernelPairing(g1: Tensor3, x: Tensor3, w1: Tensor4, d: int): (int, int, int) -> real
  {
    (c, m1, m2) => w1.At(m1, m2, c, d) * Dw1Grad(g1, x, w1.d0, w1.d1, m1, m2, c, d)
  }

  /** Term (n1, n2, c) of that layer pairing: input channel c's share at (n1, n2). */
  function ChannelTriple(g1: Tensor3, x: Tensor3, w1: Tensor4, d: int): (int, int, int) -> real
  {
    (n1, n2, c) => g1.At(n1, n2, d) * Sum2(w1.d0, w1.d1, Plane(LayerTerm(x, w1, 1, n1, n2, d), c))
  }

  /** Term (n1, n2, i, j) of input channel c's share: one kernel term at one position. */
  function ChannelQuad(g1: Tensor3, x: Tensor3, w1: Tensor4, c: int, d: int): (int, int, int, int) -> real
  {
    (n1, n2, i, j) => g1.At(n1, n2, d) * Plane(LayerTerm(x, w1, 1, n1, n2, d), c)(i, j)
  }

  /** Term (n1, n2) of GradXi1 paired with X shifted by (i - 1, j - 1). */
  function ShiftedProduct(g1: Tensor3, x: Tensor3, i: int, j: int, c: int, d: int): (int, int) -> real
  {
    (n1, n2) => g1.At(n1, n2, d) * x.At(n1 + i - 1, n2 + j - 1, c)
  }

  /** The corrected dW1 is the gradient of the first layer's pairing: summed over X's grid
      (the first layer's output grid when the kernel is 3 x 3, as padding 1 intends),
      GradXi1 paired with channel d of `conv_layer(X, W1, 1)` equals W1[:, :, :, d]
      paired with dW1[:, :, :, d], so dW1[m1, m2, c, d] is the coefficient of
      W1[m1, m2, c, d] in that pairing. */
  lemma {:induction false} Dw1IsTranspose(g1: Tensor3, x: Tensor3, w1: Tensor4, d: int)
    requires g1.Valid() && x.Valid() && g1.d0 == x.d0 && g1.d1 == x.d1
    ensures Sum2(x.d0, x.d1, LayerPairing(g1, x, w1, d)) == Sum3(w1.d2, w1.d0, w1.d1, KernelPairing(g1, x, w1, d))
  {
    var q := ChannelTriple(g1, x, w1, d);
    var kp := KernelPairing(g1, x, w1, d);
    Dw1LayerByChannel(g1, x, w1, d);
    Dw1ChannelsByKernel(g1, x, w1, d);
    Sum2Swap(x.d0, x.d1, w1.d2, q);
    Sum3IsSumOfPlanes(w1.d2, w1.d0, w1.d1, kp);
  }

  /** At each position of the grid, the layer pairing splits into the input channels' shares. */
  lemma Dw1LayerByChannel(g1: Tensor3, x: Tensor3, w1: Tensor4, d: int)
    ensures Sum2(x.d0, x.d1, LayerPairing(g1, x, w1, d)) == Sum2(x.d0, x.d1, Inner(ChannelTriple(g1, x, w1, d), w1.d2))
  {
    var q := ChannelTriple(g1, x, w1, d);
    forall r1, r2 | 0 <= r1 < x.d0 && 0 <= r2 < x.d1
      ensures LayerPairing(g1, x, w1, d)(r1, r2) == Inner(q, w1.d2)(r1, r2)
    {
      var t := LayerTerm(x, w1, 1, r1, r2, d);
      Sum3IsSumOfPlanes(w1.d2, w1.d0, w1.d1, t);
      SumLinear(w1.d2, PlaneSums(t, w1.d0, w1.d1), PlaneSums(t, w1.d0, w1.d1), Fiber(q, r1, r2), g1.At(r1, r2, d), 0.0);
    }
    Sum2Congruent(x.d0, x.d1, LayerPairing(g1, x, w1, d), Inner(q, w1.d2));
  }

  /** Summed over the input channels, each channel's share is its kernel plane's pairing. */
  lemma Dw1ChannelsByKernel(g1: Tensor3, x: Tensor3, w1: Tensor4, d: int)
    requires g1.Valid() && x.Valid() && g1.d0 == x.d0 && g1.d1 == x.d1
    ensures Sum(w1.d2, Outer(ChannelTriple(g1, x, w1, d), x.d0, x.d1))
            == Sum(w1.d2, PlaneSums(KernelPairing(g1, x, w1, d), w1.d0, w1.d1))
  {
    var q := ChannelTriple(g1, x, w1, d);
    var kp := KernelPairing(g1, x, w1, d);
    forall c | 0 <= c < w1.d2
      ensures Outer(q, x.d0, x.d1)(c) == PlaneSums(kp, w1.d0, w1.d1)(c)
    {
      Dw1ChannelIsTranspose(g1, x, w1, c, d);
    }
    SumCongruent(w1.d2, Outer(q, x.d0, x.d1), PlaneSums(kp, w1.d0, w1.d1));
  }

  /** Input channel c's share of the layer pairing is W1[:, :, c, d] paired with
      dW1[:, :, c, d]. */
  lemma {:induction false} Dw1ChannelIsTranspose(g1: Tensor3, x: Tensor3, w1: Tensor4, c: int, d: int)
    requires g1.Valid() && x.Valid() && g1.d0 == x.d0 && g1.d1 == x.d1
    ensures Sum2(x.d0, x.d1, Slice(ChannelTriple(g1, x, w1, d), c)) == Sum2(w1.d0, w1.d1, Plane(KernelPairing(g1, x, w1, d), c))
  {
    var f := ChannelQuad(g1, x, w1, c, d);
    var kc := Plane(KernelPairing(g1, x, w1, d), c);
    Dw1ShareByKernelTerm(g1, x, w1, c, d);
    Dw1KernelTermsRotated(g1, x, w1, c, d);
    Sum22Swap(x.d0, x.d1, w1.d0, w1.d1, f);
    Sum2Reverse(w1.d0, w1.d1, kc);
  }

  /** At each position, channel c's share is the sum of its kernel terms. */
  lemma Dw1ShareByKernelTerm(g1: Tensor3, x: Tensor3, w1: Tensor4, c: int, d: int)
    ensures Sum2(x.d0, x.d1, Slice(ChannelTriple(g1, x, w1, d), c))
            == Sum2(x.d0, x.d1, InnerSum2(ChannelQuad(g1, x, w1, c, d), w1.d0, w1.d1))
  {
    var f := ChannelQuad(g1, x, w1, c, d);
    var q := ChannelTriple(g1, x, w1, d);
    forall r1, r2 | 0 <= r1 < x.d0 && 0 <= r2 < x.d1
      ensures Slice(q, c)(r1, r2) == InnerSum2(f, w1.d0, w1.d1)(r1, r2)
    {
      var p := Plane(LayerTerm(x, w1, 1, r1, r2, d), c);
      Sum2Linear(w1.d0, w1.d1, p, p, Cross(f, r1, r2), g1.At(r1, r2, d), 0.0);
    }
    Sum2Congruent(x.d0, x.d1, Slice(q, c), InnerSum2(f, w1.d0, w1.d1));
  }

  /** Summed over the grid, the terms of kernel index (i, j) are the rotated entry of
      W1[:, :, c, d] paired with the corrected dW1. */
  lemma Dw1KernelTermsRotated(g1: Tensor3, x: Tensor3, w1: Tensor4, c: int, d: int)
    requires g1.Valid() && x.Valid() && g1.d0 == x.d0 && g1.d1 == x.d1
    ensures Sum2(w1.d0, w1.d1, OuterSum2(ChannelQuad(g1, x, w1, c, d), x.d0, x.d1))
            == Sum2(w1.d0, w1.d1, Reversed2(Plane(KernelPairing(g1, x, w1, d), c), w1.d0, w1.d1))
  {
    var f := ChannelQuad(g1, x, w1, c, d);
    var kc := Plane(KernelPairing(g1, x, w1, d), c);
    forall i, j | 0 <= i < w1.d0 && 0 <= j < w1.d1
      ensures OuterSum2(f, x.d0, x.d1)(i, j) == Reversed2(kc, w1.d0, w1.d1)(i, j)
    {
      Dw1EntryIsTranspose(g1, x, w1, c, d, i, j);
    }
    Sum2Congruent(w1.d0, w1.d1, OuterSum2(f, x.d0, x.d1), Reversed2(kc, w1.d0, w1.d1));
  }

  /** The terms of rotated kernel index (i, j), summed over the grid, are the weight
      W1[M1-1-i, M2-1-j, c, d] times the source's sum at (i, j). */
  lemma {:induction false} Dw1EntryIsTranspose(g1: Tensor3, x: Tensor3, w1: Tensor4, c: int, d: int, i: int, j: int)
    requires g1.Valid() && x.Valid() && g1.d0 == x.d0 && g1.d1 == x.d1
    ensures OuterSum2(ChannelQuad(g1, x, w1, c, d), x.d0, x.d1)(i, j)
            == w1.At(w1.d0 - 1 - i, w1.d1 - 1 - j, c, d) * Dw1At(g1, x, i, j, c, d)
  {
    var f := ChannelQuad(g1, x, w1, c, d);
    Dw1EntryScaled(g1, x, w1, c, d, i, j);
    Dw1ShiftedSum(g1, x, i, j, c, d);
    assert OuterSum2(f, x.d0, x.d1)(i, j) == Sum2(x.d0, x.d1, Across(f, i, j));
  }

  /** Summed over the grid, the terms of rotated kernel index (i, j) are the weight times
      the shifted product's sum. */
  lemma Dw1EntryScaled(g1: Tensor3, x: Tensor3, w1: Tensor4, c: int, d: int, i: int, j: int)
    ensures Sum2(x.d0, x.d1, Across(ChannelQuad(g1, x, w1, c, d), i, j))
            == w1.At(w1.d0 - 1 - i, w1.d1 - 1 - j, c, d) * Sum2(x.d0, x.d1, ShiftedProduct(g1, x, i, j, c, d))
  {
    var f := ChannelQuad(g1, x, w1, c, d);
    var z := w1.At(w1.d0 - 1 - i, w1.d1 - 1 - j, c, d);
    var s := ShiftedProduct(g1, x, i, j, c, d);
    forall r1, r2 | 0 <= r1 < x.d0 && 0 <= r2 < x.d1
      ensures Across(f, i, j)(r1, r2) == z * s(r1, r2) + 0.0 * s(r1, r2)
    {
      Dw1EntryTerm(g1, x, w1, c, d, i, j, r1, r2);
    }
    Sum2Linear(x.d0, x.d1, s, s, Across(f, i, j), z, 0.0);
  }

  /** One term of rotated kernel index (i, j): the weight times the shifted product. */
  lemma Dw1EntryTerm(g1: Tensor3, x: Tensor3, w1: Tensor4, c: int, d: int, i: int, j: int, r1: int, r2: int)
    ensures Across(ChannelQuad(g1, x, w1, c, d), i, j)(r1, r2)
            == w1.At(w1.d0 - 1 - i, w1.d1 - 1 - j, c, d) * ShiftedProduct(g1, x, i, j, c, d)(r1, r2)
  {
    var a, b := g1.At(r1, r2, d), x.At(r1 + i - 1, r2 + j - 1, c);
    var z := w1.At(w1.d0 - 1 - i, w1.d1 - 1 - j, c, d);
    calc {
      Across(ChannelQuad(g1, x, w1, c, d), i, j)(r1, r2);
      a * Plane(LayerTerm(x, w1, 1, r1, r2, d), c)(i, j);
      a * LayerTerm(x, w1, 1, r1, r2, d)(c, i, j);
      a * (z * b);
      z * (a * b);
    }
  }

  /** GradXi1 paired with X shifted by (i - 1, j - 1) is the source's sum at (i, j). */
  lemma {:induction false} Dw1ShiftedSum(g1: Tensor3, x: Tensor3, i: int, j: int, c: int, d: int)
    requires g1.Valid() && x.Valid() && g1.d0 == x.d0 && g1.d1 == x.d1
    ensures Sum2(x.d0, x.d1, ShiftedProduct(g1, x, i, j, c, d)) == Dw1At(g1, x, i, j, c, d)
  {
    var p := Dw1PaddedTerm(g1, x, i, j, c, d);
    Dw1GuardIsPadding(g1, x, i, j, c, d);
    assert Sum2(x.d0, x.d1, Shifted2(p, i - 1, j - 1)) == Sum2(x.d0, x.d1, p) by {
      Dw1PaddedSupport(g1, x, i, j, c, d);
      Sum2Shift(x.d0, x.d1, i - 1, j - 1, p);
    }
    Dw1ShiftedIsPadded(g1, x, i, j, c, d);
  }

  /** The shifted product is the padded term moved by (i - 1, j - 1). */
  lemma Dw1ShiftedIsPadded(g1: Tensor3, x: Tensor3, i: int, j: int, c: int, d: int)
    ensures Sum2(x.d0, x.d1, ShiftedProduct(g1, x, i, j, c, d))
            == Sum2(x.d0, x.d1, Shifted2(Dw1PaddedTerm(g1, x, i, j, c, d), i - 1, j - 1))
  {
    var p := Dw1PaddedTerm(g1, x, i, j, c, d);
    forall r1, r2 | 0 <= r1 < x.d0 && 0 <= r2 < x.d1
      ensures ShiftedProduct(g1, x, i, j, c, d)(r1, r2) == Shifted2(p, i - 1, j - 1)(r1, r2)
    {
      assert r1 + (i - 1) - (i - 1) == r1 && r2 + (j - 1) - (j - 1) == r2;
    }
    Sum2Congruent(x.d0, x.d1, ShiftedProduct(g1, x, i, j, c, d), Shifted2(p, i - 1, j - 1));
  }

  /** The padded term vanishes unless both X's index and GradXi1's shifted index lie on
      the grid. */
  lemma Dw1PaddedSupport(g1: Tensor3, x: Tensor3, i: int, j: int, c: int, d: int)
    requires g1.Valid() && x.Valid() && g1.d0 == x.d0 && g1.d1 == x.d1
    ensures forall k1, k2 :: !(0 <= k1 < x.d0 && i - 1 <= k1 < x.d0 + i - 1 && 0 <= k2 < x.d1 && j - 1 <= k2 < x.d1 + j - 1) ==>
              Dw1PaddedTerm(g1, x, i, j, c, d)(k1, k2) == 0.0
  {
    forall k1, k2 | !(0 <= k1 < x.d0 && i - 1 <= k1 < x.d0 + i - 1 && 0 <= k2 < x.d1 && j - 1 <= k2 < x.d1 + j - 1)
      ensures Dw1PaddedTerm(g1, x, i, j, c, d)(k1, k2) == 0.0
    {
      if !(0 <= k1 < x.d0 && 0 <= k2 < x.d1) {
        assert x.At(k1, k2, c) == 0.0;
      } else {
        assert g1.At(k1 - (i - 1), k2 - (j - 1), d) == 0.0;
      }
    }
  }

  /** A 3 x 3 single-channel image with a 1 at (a, b) and 0 elsewhere. */
  function Point3(a: int, b: int): Tensor3
  {
    Tensor3(3, 3, 1, seq(3, i => seq(3, j => [if i == a && j == b then 1.0 else 0.0])))
  }

  /** A 3 x 3 kernel from one channel to one channel with a 1 at (a, b) and 0 elsewhere. */
  function PointKernel(a: int, b: int): Tensor4
  {
    Tensor4(3, 3, 1, 1, seq(3, i => seq(3, j => [[if i == a && j == b then 1.0 else 0.0]])))
  }

  /** As written, dW1 is the gradient of the rotated kernel. With X a 1 at (0, 0) and
      GradXi1 a 1 at (1, 1), the pairing is `conv_layer(X, W1, 1)` at (1, 1), which
      W1[2, 2] moves and W1[0, 0] does not; the source's sum is 0 at (2, 2) and 1 at (0, 0),
      while the corrected dW1 is 1 at (2, 2). */
  lemma Dw1OrientationAsWritten()
    ensures ConvLayerAt(Point3(0, 0), PointKernel(2, 2), 1, 1, 1, 0) == 1.0
    ensures ConvLayerAt(Point3(0, 0), PointKernel(0, 0), 1, 1, 1, 0) == 0.0
    ensures Dw1At(Point3(1, 1), Point3(0, 0), 2, 2, 0, 0) == 0.0
    ensures Dw1At(Point3(1, 1), Point3(0, 0), 0, 0, 0, 0) == 1.0
    ensures Dw1Grad(Point3(1, 1), Point3(0, 0), 3, 3, 2, 2, 0, 0) == 1.0
  {
    PointLayerMoved();
    PointLayerUnmoved();
    PointSums();
  }

  lemma PointLayerMoved()
    ensures ConvLayerAt(Point3(0, 0), PointKernel(2, 2), 1, 1, 1, 0) == 1.0
  {
  }

  lemma PointLayerUnmoved()
    ensures ConvLayerAt(Point3(0, 0), PointKernel(0, 0), 1, 1, 1, 0) == 0.0
  {
  }

  lemma PointSums()
    ensures Dw1At(Point3(1, 1), Point3(0, 0), 2, 2, 0, 0) == 0.0
    ensures Dw1At(Point3(1, 1), Point3(0, 0), 0, 0, 0, 0) == 1.0
  {
    var g, x := Point3(1, 1), Point3(0, 0);
    assert g.At(1, 1, 0) == 1.0 && x.At(0, 0, 0) == 1.0;
  }

  /** Term (n1, n2) of `dW2[0, 0, d, a, k]`: GradXi2[n1, n2, a, k] * H[n1, n2, d]. */
  function Dw2Term(g2: Tensor4, h: Tensor3, d: int, a: int, k: int): (int, int) -> real
  {
    (n1, n2) => g2.At(n1, n2, a, k) * h.At(n1, n2, d)
  }

  /** `dW2[0, 0, d, a, k]`: the sum of those terms over the rows x cols grid of X. */
  function Dw2At(g2: Tensor4, h: Tensor3, rows: nat, cols: nat, d: int, a: int, k: int): real
  {
    Sum2(rows, cols, Dw2Term(g2, h, d, a, k))
  }

  /** Term (n1, n2, d) of the pairing of GradXi2 with the excitations of one anchor channel. */
  function GridTriple(h: Tensor3, g2: Tensor4, w2: Tensor5, a: int, k: int): (int, int, int) -> real
  {
    (n1, n2, d) => g2.At(n1, n2, a, k) * ProjTerm(h, w2, n1, n2, a, k)(d)
  }

  /** Term (n1, n2) of that pairing. */
  function GridPairing(h: Tensor3, g2: Tensor4, w2: Tensor5, a: int, k: int): (int, int) -> real
  {
    (n1, n2) => g2.At(n1, n2, a, k) * Excitation2(h, w2, n1, n2, a, k)
  }

  /** Term d of the pairing of the second-layer weights with dW2. */
  function WeightPairing(h: Tensor3, g2: Tensor4, w2: Tensor5, rows: nat, cols: nat, a: int, k: int): int -> real
  {
    d => w2.At(0, 0, d, a, k) * Dw2At(g2, h, rows, cols, d, a, k)
  }

  /** dW2 is the gradient of the second layer's output pairing: summed over the grid,
      GradXi2 paired with the excitations `Xi_2 = H W2` of channel k of anchor a equals
      W2 paired with dW2 there, so dW2[0, 0, d, a, k] is the coefficient of
      W2[0, 0, d, a, k] in that pairing. */
  lemma {:induction false} Dw2IsTranspose(h: Tensor3, g2: Tensor4, w2: Tensor5, rows: nat, cols: nat, a: int, k: int)
    ensures Sum2(rows, cols, GridPairing(h, g2, w2, a, k)) == Sum(w2.d2, WeightPairing(h, g2, w2, rows, cols, a, k))
  {
    var f := GridTriple(h, g2, w2, a, k);
    GridPairingExpands(h, g2, w2, rows, cols, a, k);
    Sum2Swap(rows, cols, w2.d2, f);
    forall d | 0 <= d < w2.d2
      ensures Outer(f, rows, cols)(d) == WeightPairing(h, g2, w2, rows, cols, a, k)(d)
    {
      GridSlice(h, g2, w2, rows, cols, a, k, d);
    }
    SumCongruent(w2.d2, Outer(f, rows, cols), WeightPairing(h, g2, w2, rows, cols, a, k));
  }

  lemma {:induction false} GridPairingExpands(h: Tensor3, g2: Tensor4, w2: Tensor5, rows: nat, cols: nat, a: int, k: int)
    ensures Sum2(rows, cols, GridPairing(h, g2, w2, a, k)) == Sum2(rows, cols, Inner(GridTriple(h, g2, w2, a, k), w2.d2))
  {
    var f := GridTriple(h, g2, w2, a, k);
    forall n1, n2 | 0 <= n1 < rows && 0 <= n2 < cols
      ensures GridPairing(h, g2, w2, a, k)(n1, n2) == Inner(f, w2.d2)(n1, n2)
    {
      var p := ProjTerm(h, w2, n1, n2, a, k);
      SumLinear(w2.d2, p, p, Fiber(f, n1, n2), g2.At(n1, n2, a, k), 0.0);
    }
    Sum2Congruent(rows, cols, GridPairing(h, g2, w2, a, k), Inner(f, w2.d2));
  }

  /** Hidden channel d's share of the grid pairing is W2[0, 0, d, a, k] * dW2[0, 0, d, a, k]. */
  lemma {:induction false} GridSlice(h: Tensor3, g2: Tensor4, w2: Tensor5, rows: nat, cols: nat, a: int, k: int, d: int)
    ensures Outer(GridTriple(h, g2, w2, a, k), rows, cols)(d) == WeightPairing(h, g2, w2, rows, cols, a, k)(d)
  {
    var f := GridTriple(h, g2, w2, a, k);
    var t := Dw2Term(g2, h, d, a, k);
    var z := w2.At(0, 0, d, a, k);
    forall n1, n2 | 0 <= n1 < rows && 0 <= n2 < cols
      ensures Slice(f, d)(n1, n2) == z * t(n1, n2) + 0.0 * t(n1, n2)
    {
      var x, y := g2.At(n1, n2, a, k), h.At(n1, n2, d);
      calc {
        Slice(f, d)(n1, n2);
        x * ProjTerm(h, w2, n1, n2, a, k)(d);
        x * (y * z);
        z * (x * y);
        z * t(n1, n2) + 0.0 * t(n1, n2);
      }
    }
    Sum2Linear(rows, cols, t, t, Slice(f, d), z, 0.0);
  }

  /** Without layer gradients there are no weight gradients. */
  lemma {:induction false} NoErrorNoWeightGradient(g1: Tensor3, g2: Tensor4, x: Tensor3, h: Tensor3,
                                                   m1: int, m2: int, c: int, d: int, a: int, k: int)
    requires forall i, j :: 0 <= i < x.d0 && 0 <= j < x.d1 ==> g1.At(i, j, d) == 0.0
    requires forall i, j :: 0 <= i < x.d0 && 0 <= j < x.d1 ==> g2.At(i, j, a, k) == 0.0
    ensures Dw1At(g1, x, m1, m2, c, d) == 0.0
    ensures Dw2At(g2, h, x.d0, x.d1, d, a, k) == 0.0
  {
    var t1 := Dw1Term(g1, x, m1, m2, c, d);
    forall i, j | 0 <= i < x.d0 && 0 <= j < x.d1
      ensures t1(i, j) == 0.0
    {
      if 0 <= i - (m1 - 1) < x.d0 && 0 <= j - (m2 - 1) < x.d1 {
        assert g1.At(i - (m1 - 1), j - (m2 - 1), d) == 0.0;
      }
    }
    Sum2Zero(x.d0, x.d1, t1);
    var t2 := Dw2Term(g2, h, d, a, k);
    forall i, j | 0 <= i < x.d0 && 0 <= j < x.d1
      ensures t2(i, j) == 0.0
    {
    }
    Sum2Zero(x.d0, x.d1, t2);
  }

  /** `weight_gradient(X, H, GradXi1, GradXi2, M1, M2)`: dW1 of shape (M1, M2, NC, ND) and
      dW2 of shape (1, 1, ND, NA, NY), the sums running over X's N1 x N2 grid. The other
      arrays must cover that grid, as the source's indexing demands. dW1[m1, m2] holds the
      source's guarded sum taken at the rotated kernel index (M1-1-m1, M2-1-m2), the
      gradient of the kernel `conv_layer` applies (`Dw1IsTranspose`); the source stores
      the sum at (m1, m2) itself (`Dw1OrientationAsWritten`). */
  method WeightGradient(X: array3<real>, H: array3<real>, GradXi1: array3<real>, GradXi2: array4<real>, M1: nat, M2: nat)
    returns (dW1: array4<real>, dW2: array5<real>)
    requires X.Length0 <= GradXi1.Length0 && X.Length1 <= GradXi1.Length1 && H.Length2 <= GradXi1.Length2
    requires X.Length0 <= H.Length0 && X.Length1 <= H.Length1
    requires X.Length0 <= GradXi2.Length0 && X.Length1 <= GradXi2.Length1
    ensures dW1.Length0 == M1 && dW1.Length1 == M2 && dW1.Length2 == X.Length2 && dW1.Length3 == H.Length2
    ensures forall i, j, c, d :: 0 <= i < M1 && 0 <= j < M2 && 0 <= c < X.Length2 && 0 <= d < H.Length2 ==>
              dW1[i, j, c, d] == Dw1Grad(Snap3(GradXi1), Snap3(X), M1, M2, i, j, c, d)
    ensures dW2.Length0 == 1 && dW2.Length1 == 1 && dW2.Length2 == H.Length2
    ensures dW2.Length3 == GradXi2.Length2 && dW2.Length4 == GradXi2.Length3
    ensures forall d, a, k :: 0 <= d < H.Length2 && 0 <= a < GradXi2.Length2 && 0 <= k < GradXi2.Length3 ==>
              dW2[0, 0, d, a, k] == Dw2At(Snap4(GradXi2), Snap3(H), X.Length0, X.Length1, d, a, k)
  {
    ghost var x, h, g1, g2 := Snap3(X), Snap3(H), Snap3(GradXi1), Snap4(GradXi2);
    dW1 := new real[M1, M2, X.Length2, H.Length2]((i, j, c, d) => 0.0);
    for nd := 0 to H.Length2
      modifies dW1
      invariant forall i, j, c, d :: 0 <= i < M1 && 0 <= j < M2 && 0 <= c < X.Length2 && 0 <= d < H.Length2 ==>
                  dW1[i, j, c, d] == if d < nd then Dw1Grad(g1, x, M1, M2, i, j, c, d) else 0.0
    {
      Dw1Slice(dW1, X, GradXi1, nd, x, g1);
    }
    dW2 := new real[1, 1, H.Length2, GradXi2.Length2, GradXi2.Length3]((i, j, d, a, k) => 0.0);
    for nd := 0 to H.Length2
      modifies dW2
      invariant forall d, a, k :: 0 <= d < H.Length2 && 0 <= a < GradXi2.Length2 && 0 <= k < GradXi2.Length3 ==>
                  dW2[0, 0, d, a, k] == if d < nd then Dw2At(g2, h, X.Length0, X.Length1, d, a, k) else 0.0
    {
      Dw2Slice(dW2, H, GradXi2, X.Length0, X.Length1, nd, h, g2);
    }
  }

  /** The loops over nc, m2 and m1 for one hidden channel nd. */
  method Dw1Slice(dW1: array4<real>, X: array3<real>, GradXi1: array3<real>, nd: nat, ghost x: Tensor3, ghost g1: Tensor3)
    modifies dW1
    requires Views3(x, X) && Views3(g1, GradXi1)
    requires X.Length0 <= GradXi1.Length0 && X.Length1 <= GradXi1.Length1 && nd < GradXi1.Length2
    requires dW1.Length2 == X.Length2 && nd < dW1.Length3
    ensures forall i, j, c, d :: 0 <= i < dW1.Length0 && 0 <= j < dW1.Length1 && 0 <= c < dW1.Length2 && 0 <= d < dW1.Length3 ==>
              dW1[i, j, c, d] == if d == nd then Dw1Grad(g1, x, dW1.Length0, dW1.Length1, i, j, c, d) else old(dW1[i, j, c, d])
  {
    for nc := 0 to X.Length2
      invariant forall i, j, c, d :: 0 <= i < dW1.Length0 && 0 <= j < dW1.Length1 && 0 <= c < dW1.Length2 && 0 <= d < dW1.Length3 ==>
                  dW1[i, j, c, d] == if d == nd && c < nc then Dw1Grad(g1, x, dW1.Length0, dW1.Length1, i, j, c, d) else old(dW1[i, j, c, d])
    {
      Dw1Channel(dW1, X, GradXi1, nc, nd, x, g1);
    }
  }

  /** The loops over m2 and m1 for one pair (nc, nd). */
  method Dw1Channel(dW1: array4<real>, X: array3<real>, GradXi1: array3<real>, nc: nat, nd: nat,
                    ghost x: Tensor3, ghost g1: Tensor3)
    modifies dW1
    requires Views3(x, X) && Views3(g1, GradXi1)
    requires X.Length0 <= GradXi1.Length0 && X.Length1 <= GradXi1.Length1 && nd < GradXi1.Length2
    requires nc < dW1.Length2 == X.Length2 && nd < dW1.Length3
    ensures forall i, j, c, d :: 0 <= i < dW1.Length0 && 0 <= j < dW1.Length1 && 0 <= c < dW1.Length2 && 0 <= d < dW1.Length3 ==>
              dW1[i, j, c, d] == if d == nd && c == nc then Dw1Grad(g1, x, dW1.Length0, dW1.Length1, i, j, c, d) else old(dW1[i, j, c, d])
  {
    for m2 := 0 to dW1.Length1
      invariant forall i, j, c, d :: 0 <= i < dW1.Length0 && 0 <= j < dW1.Length1 && 0 <= c < dW1.Length2 && 0 <= d < dW1.Length3 ==>
                  dW1[i, j, c, d] == if d == nd && c == nc && j < m2 then Dw1Grad(g1, x, dW1.Length0, dW1.Length1, i, j, c, d) else old(dW1[i, j, c, d])
    {
      Dw1Column(dW1, X, GradXi1, m2, nc, nd, x, g1);
    }
  }

  /** The loop over m1 for one (m2, nc, nd); entry (m1, m2) receives the sum at the
      rotated index (M1-1-m1, M2-1-m2). */
  method Dw1Column(dW1: array4<real>, X: array3<real>, GradXi1: array3<real>, m2: nat, nc: nat, nd: nat,
                   ghost x: Tensor3, ghost g1: Tensor3)
    modifies dW1
    requires Views3(x, X) && Views3(g1, GradXi1)
    requires X.Length0 <= GradXi1.Length0 && X.Length1 <= GradXi1.Length1 && nd < GradXi1.Length2
    requires m2 < dW1.Length1 && nc < dW1.Length2 == X.Length2 && nd < dW1.Length3
    ensures forall i, j, c, d :: 0 <= i < dW1.Length0 && 0 <= j < dW1.Length1 && 0 <= c < dW1.Length2 && 0 <= d < dW1.Length3 ==>
              dW1[i, j, c, d] == if d == nd && c == nc && j == m2 then Dw1Grad(g1, x, dW1.Length0, dW1.Length1, i, j, c, d) else old(dW1[i, j, c, d])
  {
    for m1 := 0 to dW1.Length0
      invariant forall i, j, c, d :: 0 <= i < dW1.Length0 && 0 <= j < dW1.Length1 && 0 <= c < dW1.Length2 && 0 <= d < dW1.Length3 ==>
                  dW1[i, j, c, d] == if d == nd && c == nc && j == m2 && i < m1 then Dw1Grad(g1, x, dW1.Length0, dW1.Length1, i, j, c, d) else old(dW1[i, j, c, d])
    {
      var s := Dw1Entry(X, GradXi1, dW1.Length0 - 1 - m1, dW1.Length1 - 1 - m2, nc, nd, x, g1);
      dW1[m1, m2, nc, nd] := s;
    }
  }

  /** The double loop over X's grid that accumulates `sum` for one dW1 entry. */
  method Dw1Entry(X: array3<real>, GradXi1: array3<real>, m1: nat, m2: nat, nc: nat, nd: nat,
                  ghost x: Tensor3, ghost g1: Tensor3) returns (s: real)
    requires Views3(x, X) && Views3(g1, GradXi1)
    requires X.Length0 <= GradXi1.Length0 && X.Length1 <= GradXi1.Length1 && nd < GradXi1.Length2 && nc < X.Length2
    ensures s == Dw1At(g1, x, m1, m2, nc, nd)
  {
    s := 0.0;
    for n1 := 0 to X.Length0
      invariant s == Sum2(n1, x.d1, Dw1Term(g1, x, m1, m2, nc, nd))
    {
      s := Dw1Row(X, GradXi1, m1, m2, nc, nd, n1, s, x, g1);
    }
  }

  method Dw1Row(X: array3<real>, GradXi1: array3<real>, m1: nat, m2: nat, nc: nat, nd: nat, n1: nat, s0: real,
                ghost x: Tensor3, ghost g1: Tensor3) returns (s: real)
    requires Views3(x, X) && Views3(g1, GradXi1)
    requires X.Length0 <= GradXi1.Length0 && X.Length1 <= GradXi1.Length1 && nd < GradXi1.Length2 && nc < X.Length2
    requires n1 < X.Length0
    ensures s == s0 + Sum(x.d1, Row(Dw1Term(g1, x, m1, m2, nc, nd), n1))
  {
    s := s0;
    for n2 := 0 to X.Length1
      invariant s == s0 + Sum(n2, Row(Dw1Term(g1, x, m1, m2, nc, nd), n1))
    {
      if n1 - (m1 - 1) >= 0 && n2 - (m2 - 1) >= 0 && n1 - (m1 - 1) < X.Length0 && n2 - (m2 - 1) < X.Length1 {
        s := s + GradXi1[n1 - (m1 - 1), n2 - (m2 - 1), nd] * X[n1, n2, nc];
      }
    }
  }

  /** The loops over na and ny for one hidden channel nd. */
  method Dw2Slice(dW2: array5<real>, H: array3<real>, GradXi2: array4<real>, rows: nat, cols: nat, nd: nat,
                  ghost h: Tensor3, ghost g2: Tensor4)
    modifies dW2
    requires Views3(h, H) && Views4(g2, GradXi2)
    requires rows <= H.Length0 && cols <= H.Length1 && rows <= GradXi2.Length0 && cols <= GradXi2.Length1
    requires dW2.Length0 == 1 && dW2.Length1 == 1 && nd < dW2.Length2 == H.Length2
    requires dW2.Length3 == GradXi2.Length2 && dW2.Length4 == GradXi2.Length3
    ensures forall d, a, k :: 0 <= d < dW2.Length2 && 0 <= a < dW2.Length3 && 0 <= k < dW2.Length4 ==>
              dW2[0, 0, d, a, k] == if d == nd then Dw2At(g2, h, rows, cols, d, a, k) else old(dW2[0, 0, d, a, k])
  {
    for na := 0 to GradXi2.Length2
      invariant forall d, a, k :: 0 <= d < dW2.Length2 && 0 <= a < dW2.Length3 && 0 <= k < dW2.Length4 ==>
                  dW2[0, 0, d, a, k] == if d == nd && a < na then Dw2At(g2, h, rows, cols, d, a, k) else old(dW2[0, 0, d, a, k])
    {
      Dw2Anchor(dW2, H, GradXi2, rows, cols, nd, na, h, g2);
    }
  }

  /** The loop over ny for one (nd, na). */
  method Dw2Anchor(dW2: array5<real>, H: array3<real>, GradXi2: array4<real>, rows: nat, cols: nat, nd: nat, na: nat,
                   ghost h: Tensor3, ghost g2: Tensor4)
    modifies dW2
    requires Views3(h, H) && Views4(g2, GradXi2)
    requires rows <= H.Length0 && cols <= H.Length1 && rows <= GradXi2.Length0 && cols <= GradXi2.Length1
    requires dW2.Length0 == 1 && dW2.Length1 == 1 && nd < dW2.Length2 == H.Length2
    requires na < dW2.Length3 == GradXi2.Length2 && dW2.Length4 == GradXi2.Length3
    ensures forall d, a, k :: 0 <= d < dW2.Length2 && 0 <= a < dW2.Length3 && 0 <= k < dW2.Length4 ==>
              dW2[0, 0, d, a, k] == if d == nd && a == na then Dw2At(g2, h, rows, cols, d, a, k) else old(dW2[0, 0, d, a, k])
  {
    for ny := 0 to GradXi2.Length3
      invariant forall d, a, k :: 0 <= d < dW2.Length2 && 0 <= a < dW2.Length3 && 0 <= k < dW2.Length4 ==>
                  dW2[0, 0, d, a, k] == if d == nd && a == na && k < ny then Dw2At(g2, h, rows, cols, d, a, k) else old(dW2[0, 0, d, a, k])
    {
      var s := Dw2Entry(H, GradXi2, rows, cols, nd, na, ny, h, g2);
      dW2[0, 0, nd, na, ny] := s;
    }
  }

  /** The double loop over X's grid that accumulates `sum1` for one dW2 entry. */
  method Dw2Entry(H: array3<real>, GradXi2: array4<real>, rows: nat, cols: nat, nd: nat, na: nat, ny: nat,
                  ghost h: Tensor3, ghost g2: Tensor4) returns (s: real)
    requires Views3(h, H) && Views4(g2, GradXi2)
    requires rows <= H.Length0 && cols <= H.Length1 && rows <= GradXi2.Length0 && cols <= GradXi2.Length1
    requires nd < H.Length2 && na < GradXi2.Length2 && ny < GradXi2.Length3
    ensures s == Dw2At(g2, h, rows, cols, nd, na, ny)
  {
    s := 0.0;
    for n1 := 0 to rows
      invariant s == Sum2(n1, cols, Dw2Term(g2, h, nd, na, ny))
    {
      s := Dw2Row(H, GradXi2, cols, nd, na, ny, n1, s, h, g2);
    }
  }

  method Dw2Row(H: array3<real>, GradXi2: array4<real>, cols: nat, nd: nat, na: nat, ny: nat, n1: nat, s0: real,
                ghost h: Tensor3, ghost g2: Tensor4) returns (s: real)
    requires Views3(h, H) && Views4(g2, GradXi2)
    requires n1 < H.Length0 && n1 < GradXi2.Length0 && cols <= H.Length1 && cols <= GradXi2.Length1
    requires nd < H.Length2 && na < GradXi2.Length2 && ny < GradXi2.Length3
    ensures s == s0 + Sum(cols, Row(Dw2Term(g2, h, nd, na, ny), n1))
  {
    s := s0;
    for n2 := 0 to cols
      invariant s == s0 + Sum(n2, Row(Dw2Term(g2, h, nd, na, ny), n1))
    {
      s := s + GradXi2[n1, n2, na, ny] * H[n1, n2, nd];
    }
  }

  // ---------------------------------------------------------------------------
  // weight_update
  // ---------------------------------------------------------------------------

  /** One weight after a gradient step of size lr: it moves against its gradient, and stays
      put exactly when the step size or the gradient is 0. */
  function Descend(w: real, g: real, lr: real): (r: real)
    ensures r == w <==> (lr == 0.0 || g == 0.0)
    ensures lr > 0.0 ==> (r < w <==> g > 0.0) && (r > w <==> g < 0.0)
  {
    w - lr * g
  }

  /** `weight_update(W1, W2, dW1, dW2, learning_rate)`: `W - learning_rate * dW` for both
      layers, as new arrays; each gradient has its weights' shape. */
  method WeightUpdate(W1: array4<real>, W2: array5<real>, dW1: array4<real>, dW2: array5<real>, lr: real)
    returns (newW1: array4<real>, newW2: array5<real>)
    requires dW1.Length0 == W1.Length0 && dW1.Length1 == W1.Length1 && dW1.Length2 == W1.Length2 && dW1.Length3 == W1.Length3
    requires dW2.Length0 == W2.Length0 && dW2.Length1 == W2.Length1 && dW2.Length2 == W2.Length2
    requires dW2.Length3 == W2.Length3 && dW2.Length4 == W2.Length4
    ensures newW1.Length0 == W1.Length0 && newW1.Length1 == W1.Length1 && newW1.Length2 == W1.Length2 && newW1.Length3 == W1.Length3
    ensures forall i, j, c, d :: 0 <= i < W1.Length0 && 0 <= j < W1.Length1 && 0 <= c < W1.Length2 && 0 <= d < W1.Length3 ==>
              newW1[i, j, c, d] == Descend(W1[i, j, c, d], dW1[i, j, c, d], lr)
    ensures newW2.Length0 == W2.Length0 && newW2.Length1 == W2.Length1 && newW2.Length2 == W2.Length2
    ensures newW2.Length3 == W2.Length3 && newW2.Length4 == W2.Length4
    ensures forall i, j, d, a, k :: 0 <= i < W2.Length0 && 0 <= j < W2.Length1 && 0 <= d < W2.Length2 && 0 <= a < W2.Length3 && 0 <= k < W2.Length4 ==>
              newW2[i, j, d, a, k] == Descend(W2[i, j, d, a, k], dW2[i, j, d, a, k], lr)
  {
    newW1 := new real[W1.Length0, W1.Length1, W1.Length2, W1.Length3](
               (i, j, c, d) requires 0 <= i < W1.Length0 && 0 <= j < W1.Length1 && 0 <= c < W1.Length2 && 0 <= d < W1.Length3
                            reads W1, dW1 =>
                 W1[i, j, c, d] - lr * dW1[i, j, c, d]);
    newW2 := new real[W2.Length0, W2.Length1, W2.Length2, W2.Length3, W2.Length4](
               (i, j, d, a, k) requires 0 <= i < W2.Length0 && 0 <= j < W2.Length1 && 0 <= d < W2.Length2
                                        && 0 <= a < W2.Length3 && 0 <= k < W2.Length4
                               reads W2, dW2 =>
                 W2[i, j, d, a, k] - lr * dW2[i, j, d, a, k]);
  }
}
