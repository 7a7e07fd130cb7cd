/** `forwardprop`: the first layer is a padding-1 convolution followed by a ReLU; the
    second is, at every cell and anchor, a dense projection of the hidden channels.
    Output channels 0-3 of every anchor are the raw projections (box regression) and
    channel 4 is the sigmoid of its projection (face score). */
module Forward {
  import opened Numeric
  import opened Sums
  import opened Tensors
  import opened Conv

  /** `np.maximum(0, x)` for one entry. */
  function Relu(x: real): (r: real)
    ensures r >= 0.0 && r >= x
    ensures r == x || r == 0.0
  {
    if x > 0.0 then x else 0.0
  }

  /** Term d of the second-layer excitation at (n1, n2, a, k). */
  function ProjTerm(h: Tensor3, w2: Tensor5, n1: int, n2: int, a: int, k: int): int -> real
  {
    d => h.At(n1, n2, d) * w2.At(0, 0, d, a, k)
  }

  /** `Xi_2[n1, n2, a, k]`: the sum over the second layer's D input channels of
      H[n1, n2, d] * W2[0, 0, d, a, k]. */
  function Excitation2(h: Tensor3, w2: Tensor5, n1: int, n2: int, a: int, k: int): real
  {
    Sum(w2.d2, ProjTerm(h, w2, n1, n2, a, k))
  }

  /** Output channel k of an anchor whose excitation in that channel is xi: channels
      0-3 pass it through, channel 4 is its sigmoid, and channels beyond 4 stay 0. */
  function OutputAt(e: ExpLog, xi: real, k: int): (y: real)
    requires Lawful(e)
    ensures 0 <= k < 4 ==> y == xi
    ensures k == 4 ==> 0.0 <= y < 1.0 && (y == 0.0 <==> xi <= SigmoidFloor)
    ensures k > 4 ==> y == 0.0
  {
    if k == 4 then Sigmoid(e, xi) else if k < 4 then xi else 0.0
  }

  /** The innermost loop: accumulates one second-layer excitation over the hidden
      channels d = 0, 1, ..., D - 1. The ghost tensors h and w2 are the contents of H
      and W2. */
  method ProjectEntry(H: array3<real>, W2: array5<real>, n1: nat, n2: nat, a: nat, k: nat,
                      ghost h: Tensor3, ghost w2: Tensor5) returns (s: real)
    requires Views3(h, H) && Views5(w2, W2)
    requires n1 < H.Length0 && n2 < H.Length1 && W2.Length2 <= H.Length2
    requires 1 <= W2.Length0 && 1 <= W2.Length1 && a < W2.Length3 && k < W2.Length4
    ensures s == Excitation2(h, w2, n1, n2, a, k)
  {
    s := 0.0;
    for d := 0 to W2.Length2
      invariant s == Sum(d, ProjTerm(h, w2, n1, n2, a, k))
    {
      s := s + H[n1, n2, d] * W2[0, 0, d, a, k];
    }
  }

  /** The loop over channels k of anchor a at cell (n1, n2). */
  method ProjectAnchor(Xi2: array4<real>, H: array3<real>, W2: array5<real>, n1: nat, n2: nat, a: nat,
                       ghost h: Tensor3, ghost w2: Tensor5)
    requires Views3(h, H) && Views5(w2, W2)
    requires n1 < Xi2.Length0 <= H.Length0 && n2 < Xi2.Length1 <= H.Length1 && W2.Length2 <= H.Length2
    requires 1 <= W2.Length0 && 1 <= W2.Length1 && a < Xi2.Length2 == W2.Length3 && Xi2.Length3 == W2.Length4
    modifies Xi2
    ensures forall i, j, a', k :: 0 <= i < Xi2.Length0 && 0 <= j < Xi2.Length1 && 0 <= a' < Xi2.Length2 && 0 <= k < Xi2.Length3 ==>
              Xi2[i, j, a', k] == if i == n1 && j == n2 && a' == a then Excitation2(h, w2, i, j, a', k)
                                  else old(Xi2[i, j, a', k])
  {
    for k := 0 to Xi2.Length3
      invariant forall i, j, a', k' :: 0 <= i < Xi2.Length0 && 0 <= j < Xi2.Length1 && 0 <= a' < Xi2.Length2 && 0 <= k' < Xi2.Length3 ==>
                  Xi2[i, j, a', k'] == if i == n1 && j == n2 && a' == a && k' < k then Excitation2(h, w2, i, j, a', k')
                                       else old(Xi2[i, j, a', k'])
    {
      var s := ProjectEntry(H, W2, n1, n2, a, k, h, w2);
      Xi2[n1, n2, a, k] := s;
    }
  }

  /** The loop over anchors a at cell (n1, n2). */
  method ProjectCell(Xi2: array4<real>, H: array3<real>, W2: array5<real>, n1: nat, n2: nat,
                     ghost h: Tensor3, ghost w2: Tensor5)
    requires Views3(h, H) && Views5(w2, W2)
    requires n1 < Xi2.Length0 <= H.Length0 && n2 < Xi2.Length1 <= H.Length1 && W2.Length2 <= H.Length2
    requires 1 <= W2.Length0 && 1 <= W2.Length1 && Xi2.Length2 == W2.Length3 && Xi2.Length3 == W2.Length4
    modifies Xi2
    ensures forall i, j, a, k :: 0 <= i < Xi2.Length0 && 0 <= j < Xi2.Length1 && 0 <= a < Xi2.Length2 && 0 <= k < Xi2.Length3 ==>
              Xi2[i, j, a, k] == if i == n1 && j == n2 then Excitation2(h, w2, i, j, a, k) else old(Xi2[i, j, a, k])
  {
    for a := 0 to Xi2.Length2
      invariant forall i, j, a', k :: 0 <= i < Xi2.Length0 && 0 <= j < Xi2.Length1 && 0 <= a' < Xi2.Length2 && 0 <= k < Xi2.Length3 ==>
                  Xi2[i, j, a', k] == if i == n1 && j == n2 && a' < a then Excitation2(h, w2, i, j, a', k)
                                      else old(Xi2[i, j, a', k])
    {
      ProjectAnchor(Xi2, H, W2, n1, n2, a, h, w2);
    }
  }

  /** The second layer: `Xi_2[n1, n2, a, k]` for every cell of the N1 x N2 grid. */
  method Project(H: array3<real>, W2: array5<real>, rows: nat, cols: nat, ghost h: Tensor3, ghost w2: Tensor5)
    returns (Xi2: array4<real>)
    requires Views3(h, H) && Views5(w2, W2)
    requires rows <= H.Length0 && cols <= H.Length1 && W2.Length2 <= H.Length2
    requires 1 <= W2.Length0 && 1 <= W2.Length1
    ensures Xi2.Length0 == rows && Xi2.Length1 == cols && Xi2.Length2 == W2.Length3 && Xi2.Length3 == W2.Length4
    ensures forall i, j, a, k :: 0 <= i < rows && 0 <= j < cols && 0 <= a < W2.Length3 && 0 <= k < W2.Length4 ==>
              Xi2[i, j, a, k] == Excitation2(h, w2, i, j, a, k)
  {
    Xi2 := new real[rows, cols, W2.Length3, W2.Length4];
    for n1 := 0 to rows
      invariant forall i, j, a, k :: 0 <= i < n1 && 0 <= j < cols && 0 <= a < W2.Length3 && 0 <= k < W2.Length4 ==>
                  Xi2[i, j, a, k] == Excitation2(h, w2, i, j, a, k)
    {
      for n2 := 0 to cols
        invariant forall i, j, a, k :: 0 <= i < rows && 0 <= j < cols && 0 <= a < W2.Length3 && 0 <= k < W2.Length4
                                       && (i < n1 || (i == n1 && j < n2)) ==>
                    Xi2[i, j, a, k] == Excitation2(h, w2, i, j, a, k)
      {
        ProjectCell(Xi2, H, W2, n1, n2, h, w2);
      }
    }
  }

  /** The first layer: `H = np.maximum(0, conv_layer(X, W1, 1))`. */
  method Hidden(X: array3<real>, W1: array4<real>) returns (H: array3<real>)
    requires W1.Length0 <= X.Length0 + 3 && W1.Length1 <= X.Length1 + 3 && W1.Length2 <= X.Length2
    ensures H.Length0 == X.Length0 - W1.Length0 + 3 && H.Length1 == X.Length1 - W1.Length1 + 3
    ensures H.Length2 == W1.Length3
    ensures forall i, j, d :: 0 <= i < H.Length0 && 0 <= j < H.Length1 && 0 <= d < H.Length2 ==>
              H[i, j, d] == Relu(ConvLayerAt(Snap3(X), Snap4(W1), 1, i, j, d))
  {
    var Xi1 := ConvLayer(X, W1, 1);
    H := new real[Xi1.Length0, Xi1.Length1, Xi1.Length2](
           (i, j, d) requires 0 <= i < Xi1.Length0 && 0 <= j < Xi1.Length1 && 0 <= d < Xi1.Length2 reads Xi1 =>
             Relu(Xi1[i, j, d]));
  }

  /** The output head: a zero `Y_hat` of the excitations' shape, then
      `Y_hat[:, :, :, 4] = sigmoid(Xi_2[:, :, :, 4])`, then `Y_hat[:, :, :, i] = Xi_2[:, :, :, i]`
      for i = 0, ..., 3. */
  method OutputHead(e: ExpLog, Xi2: array4<real>) returns (Yhat: array4<real>)
    requires Lawful(e)
    requires 5 <= Xi2.Length3
    ensures Yhat.Length0 == Xi2.Length0 && Yhat.Length1 == Xi2.Length1
    ensures Yhat.Length2 == Xi2.Length2 && Yhat.Length3 == Xi2.Length3
    ensures forall i, j, a, k :: 0 <= i < Yhat.Length0 && 0 <= j < Yhat.Length1 && 0 <= a < Yhat.Length2 && 0 <= k < Yhat.Length3 ==>
              Yhat[i, j, a, k] == OutputAt(e, Xi2[i, j, a, k], k)
  {
    Yhat := new real[Xi2.Length0, Xi2.Length1, Xi2.Length2, Xi2.Length3];
    forall n1, n2, a, k | 0 <= n1 < Yhat.Length0 && 0 <= n2 < Yhat.Length1 && 0 <= a < Yhat.Length2 && 0 <= k < Yhat.Length3 {
      Yhat[n1, n2, a, k] := 0.0;
    }
    forall n1, n2, a | 0 <= n1 < Yhat.Length0 && 0 <= n2 < Yhat.Length1 && 0 <= a < Yhat.Length2 {
      Yhat[n1, n2, a, 4] := Sigmoid(e, Xi2[n1, n2, a, 4]);
    }
    for c := 0 to 4
      invariant forall n1, n2, a, k :: 0 <= n1 < Yhat.Length0 && 0 <= n2 < Yhat.Length1 && 0 <= a < Yhat.Length2 && 0 <= k < Yhat.Length3 ==>
                  Yhat[n1, n2, a, k] == if k < c then Xi2[n1, n2, a, k] else if k == 4 then Sigmoid(e, Xi2[n1, n2, a, 4]) else 0.0
    {
      forall n1, n2, a | 0 <= n1 < Yhat.Length0 && 0 <= n2 < Yhat.Length1 && 0 <= a < Yhat.Length2 {
        Yhat[n1, n2, a, c] := Xi2[n1, n2, a, c];
      }
    }
  }

  /** `forwardprop(X, W1, W2)`: the hidden activations H and the outputs Yhat. The
      second layer reads H on the N1 x N2 grid of X, so H must cover it: the first-layer
      kernel is at most 3 x 3. Yhat needs a channel 4. Every H entry is non-negative,
      and every face score is a sigmoid: in [0, 1), and exactly 0 where the excitation
      is at or below -100. */
  method ForwardProp(e: ExpLog, X: array3<real>, W1: array4<real>, W2: array5<real>)
    returns (H: array3<real>, Yhat: array4<real>)
    requires Lawful(e)
    requires W1.Length0 <= 3 && W1.Length1 <= 3 && W1.Length2 <= X.Length2
    requires 1 <= W2.Length0 && 1 <= W2.Length1 && W2.Length2 <= W1.Length3 && 5 <= W2.Length4
    ensures H.Length0 == X.Length0 - W1.Length0 + 3 && H.Length1 == X.Length1 - W1.Length1 + 3
    ensures H.Length2 == W1.Length3
    ensures forall i, j, d :: 0 <= i < H.Length0 && 0 <= j < H.Length1 && 0 <= d < H.Length2 ==>
              H[i, j, d] == Relu(ConvLayerAt(Snap3(X), Snap4(W1), 1, i, j, d)) && H[i, j, d] >= 0.0
    ensures Yhat.Length0 == X.Length0 && Yhat.Length1 == X.Length1
    ensures Yhat.Length2 == W2.Length3 && Yhat.Length3 == W2.Length4
    ensures forall i, j, a, k :: 0 <= i < Yhat.Length0 && 0 <= j < Yhat.Length1 && 0 <= a < Yhat.Length2 && 0 <= k < Yhat.Length3 ==>
              Yhat[i, j, a, k] == OutputAt(e, Excitation2(Snap3(H), Snap5(W2), i, j, a, k), k)
  {
    H := Hidden(X, W1);
    var Xi2 := Project(H, W2, X.Length0, X.Length1, Snap3(H), Snap5(W2));
    Yhat := OutputHead(e, Xi2);
  }
}
