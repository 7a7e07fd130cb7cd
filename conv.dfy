/** The convolution engine: `conv2` (one channel: zero padding, then the valid window
    sums of the 180-degree rotated kernel) and `conv_layer` (one output channel is the
    sum over input channels of `conv2`). */
module Conv {
  import opened Sums
  import opened Tensors

  /** Output length along one axis: input length n, kernel length m, padding p. */
  function OutSize(n: nat, m: nat, p: nat): int
  {
    n - m + 1 + 2 * p
  }

  /** Term (i, j) of output entry (n1, n2) of `conv2`: the rotated kernel's entry (i, j)
      times the zero-padded input entry under it. */
  function Conv2Term(h: Tensor2, w: Tensor2, p: nat, n1: int, n2: int): (int, int) -> real
  {
    (i, j) => w.At(w.d0 - 1 - i, w.d1 - 1 - j) * h.At(n1 + i - p, n2 + j - p)
  }

  /** Entry (n1, n2) of `conv2(H, W, p)`: the sum of the window's terms. */
  function Conv2At(h: Tensor2, w: Tensor2, p: nat, n1: int, n2: int): real
  {
    Sum2(w.d0, w.d1, Conv2Term(h, w, p, n1, n2))
  }

  /** Term (c, i, j) of output entry (n1, n2, d) of `conv_layer`: kernel entry
      W[M1-1-i, M2-1-j, c, d] times the zero-padded input entry under it in channel c.
      Plane c of these terms is `conv2(H[:, :, c], W[:, :, c, d], p)` at (n1, n2)
      (`PlaneIsConv2`). */
  function LayerTerm(h: Tensor3, w: Tensor4, p: nat, n1: int, n2: int, d: int): (int, int, int) -> real
  {
    (c, i, j) => w.At(w.d0 - 1 - i, w.d1 - 1 - j, c, d) * h.At(n1 + i - p, n2 + j - p, c)
  }

  /** Entry (n1, n2, d) of `conv_layer(H, W, p)`: the sum over the kernel's input
      channels c, channel by channel, of the `conv2` window sums. */
  function ConvLayerAt(h: Tensor3, w: Tensor4, p: nat, n1: int, n2: int, d: int): real
  {
    Sum3(w.d2, w.d0, w.d1, LayerTerm(h, w, p, n1, n2, d))
  }

  /** Term (i, j) of the inner product of the rotated kernel with the window of the
      padded buffer whose corner is (n1, n2). */
  function WindowTerm(rotated: Tensor2, padded: Tensor2, n1: int, n2: int): (int, int) -> real
  {
    (i, j) => rotated.At(i, j) * padded.At(n1 + i, n2 + j)
  }

  /** Hp is H with `padding` rows and columns of zeros added on each side. */
  ghost predicate IsPadding(H: array2<real>, Hp: array2<real>, padding: nat)
    reads H, Hp
  {
    && Hp.Length0 == H.Length0 + 2 * padding && Hp.Length1 == H.Length1 + 2 * padding
    && forall r, c :: 0 <= r < Hp.Length0 && 0 <= c < Hp.Length1 ==>
         Hp[r, c] == if padding <= r < H.Length0 + padding && padding <= c < H.Length1 + padding
                     then H[r - padding, c - padding] else 0.0
  }

  /** Zero padding (`H_padded`): the buffer is `padding` rows and columns larger on
      each side, holds H in rows and columns [padding, N + padding) and 0 elsewhere. */
  method Pad(H: array2<real>, padding: nat) returns (Hp: array2<real>)
    ensures Hp.Length0 == H.Length0 + 2 * padding && Hp.Length1 == H.Length1 + 2 * padding
    ensures IsPadding(H, Hp, padding)
  {
    Hp := new real[H.Length0 + 2 * padding, H.Length1 + 2 * padding]((r, c) => 0.0);
    var i := 0;
    while i < H.Length0
      invariant 0 <= i <= H.Length0
      invariant forall r, c :: 0 <= r < Hp.Length0 && 0 <= c < Hp.Length1 ==>
                  Hp[r, c] == if padding <= r < i + padding && padding <= c < H.Length1 + padding
                              then H[r - padding, c - padding] else 0.0
    {
      var j := 0;
      while j < H.Length1
        invariant 0 <= j <= H.Length1
        invariant forall r, c :: 0 <= r < Hp.Length0 && 0 <= c < Hp.Length1 ==>
                    Hp[r, c] == if (padding <= r < i + padding && padding <= c < H.Length1 + padding)
                                   || (r == i + padding && padding <= c < j + padding)
                                then H[r - padding, c - padding] else 0.0
      {
        Hp[i + padding, j + padding] := H[i, j];
        j := j + 1;
      }
      i := i + 1;
    }
  }

  /** Read as a tensor, the padded buffer is the input shifted by `padding` in both
      axes, with zeros wherever the shifted index leaves the input. */
  lemma PaddedIsShifted(H: array2<real>, Hp: array2<real>, padding: nat)
    requires IsPadding(H, Hp, padding)
    ensures forall r, c :: Snap2(Hp).At(r, c) == Snap2(H).At(r - padding, c - padding)
  {
    var hp, h := Snap2(Hp), Snap2(H);
    forall r, c
      ensures hp.At(r, c) == h.At(r - padding, c - padding)
    {
      if 0 <= r < Hp.Length0 && 0 <= c < Hp.Length1 {
        assert hp.At(r, c) == Hp[r, c];
      }
    }
  }

  /** `rotated` is w rotated by 180 degrees and `padded` is h shifted by p in both axes. */
  ghost predicate Prepared(h: Tensor2, w: Tensor2, rotated: Tensor2, padded: Tensor2, p: nat)
  {
    && (forall i, j :: 0 <= i < w.d0 && 0 <= j < w.d1 ==> rotated.At(i, j) == w.At(w.d0 - 1 - i, w.d1 - 1 - j))
    && (forall r, c :: padded.At(r, c) == h.At(r - p, c - p))
  }

  /** The window sum over the padded buffer is the `conv2` entry of the input. */
  lemma {:induction false} WindowIsConv2(h: Tensor2, w: Tensor2, rotated: Tensor2, padded: Tensor2,
                                         p: nat, n1: int, n2: int)
    requires Prepared(h, w, rotated, padded, p)
    ensures Sum2(w.d0, w.d1, WindowTerm(rotated, padded, n1, n2)) == Conv2At(h, w, p, n1, n2)
  {
    forall i, j | 0 <= i < w.d0 && 0 <= j < w.d1
      ensures WindowTerm(rotated, padded, n1, n2)(i, j) == Conv2Term(h, w, p, n1, n2)(i, j)
    {
      assert padded.At(n1 + i, n2 + j) == h.At(n1 + i - p, n2 + j - p);
    }
    Sum2Congruent(w.d0, w.d1, WindowTerm(rotated, padded, n1, n2), Conv2Term(h, w, p, n1, n2));
  }

  /** Entry by entry, window sums over the prepared buffers are the `conv2` entries. */
  lemma WindowsAreConv2(Xi: array2<real>, h: Tensor2, w: Tensor2, rotated: Tensor2, padded: Tensor2, p: nat)
    requires Prepared(h, w, rotated, padded, p)
    requires forall i, j :: 0 <= i < Xi.Length0 && 0 <= j < Xi.Length1 ==>
               Xi[i, j] == Sum2(w.d0, w.d1, WindowTerm(rotated, padded, i, j))
    ensures forall i, j :: 0 <= i < Xi.Length0 && 0 <= j < Xi.Length1 ==> Xi[i, j] == Conv2At(h, w, p, i, j)
  {
    forall i, j | 0 <= i < Xi.Length0 && 0 <= j < Xi.Length1
      ensures Xi[i, j] == Conv2At(h, w, p, i, j)
    {
      WindowIsConv2(h, w, rotated, padded, p, i, j);
    }
  }

  /** `W[::-1, ::-1]`: the kernel rotated by 180 degrees. */
  method Rotate(W: array2<real>) returns (Wr: array2<real>)
    ensures Wr.Length0 == W.Length0 && Wr.Length1 == W.Length1
    ensures forall i, j :: 0 <= i < W.Length0 && 0 <= j < W.Length1 ==> Wr[i, j] == W[W.Length0 - 1 - i, W.Length1 - 1 - j]
  {
    Wr := new real[W.Length0, W.Length1]((i, j) requires 0 <= i < W.Length0 && 0 <= j < W.Length1 reads W =>
                                           W[W.Length0 - 1 - i, W.Length1 - 1 - j]);
  }

  /** Read as tensors, Wr is W rotated by 180 degrees. */
  lemma RotatedIsRotation(W: array2<real>, Wr: array2<real>, w: Tensor2, rotated: Tensor2)
    requires Views2(w, W) && Views2(rotated, Wr)
    requires Wr.Length0 == W.Length0 && Wr.Length1 == W.Length1
    requires forall i, j :: 0 <= i < W.Length0 && 0 <= j < W.Length1 ==> Wr[i, j] == W[W.Length0 - 1 - i, W.Length1 - 1 - j]
    ensures forall i, j :: 0 <= i < w.d0 && 0 <= j < w.d1 ==> rotated.At(i, j) == w.At(w.d0 - 1 - i, w.d1 - 1 - j)
  {
  }

  /** `np.inner` of the flattened rotated kernel Wr with the window of the padded buffer Hp
      whose corner is (n1, n2), entry by entry in row-major order. The window must lie
      inside the buffer. */
  method Window(Hp: array2<real>, Wr: array2<real>, n1: nat, n2: nat, ghost padded: Tensor2, ghost rotated: Tensor2)
    returns (s: real)
    requires Views2(padded, Hp) && Views2(rotated, Wr)
    requires n1 + Wr.Length0 <= Hp.Length0 && n2 + Wr.Length1 <= Hp.Length1
    ensures s == Sum2(Wr.Length0, Wr.Length1, WindowTerm(rotated, padded, n1, n2))
  {
    s := 0.0;
    for i := 0 to Wr.Length0
      invariant s == Sum2(i, Wr.Length1, WindowTerm(rotated, padded, n1, n2))
    {
      ghost var s0 := s;
      for j := 0 to Wr.Length1
        invariant s == s0 + Sum(j, Row(WindowTerm(rotated, padded, n1, n2), i))
      {
        s := s + Wr[i, j] * Hp[n1 + i, n2 + j];
      }
    }
  }

  /** The double loop of `conv2`: entry (n1, n2) of the rows x cols output is the window
      inner product at (n1, n2), row by row. */
  method Windows(Hp: array2<real>, Wr: array2<real>, rows: nat, cols: nat, ghost padded: Tensor2, ghost rotated: Tensor2)
    returns (Xi: array2<real>)
    requires Views2(padded, Hp) && Views2(rotated, Wr)
    requires rows + Wr.Length0 <= Hp.Length0 + 1 && cols + Wr.Length1 <= Hp.Length1 + 1
    ensures Xi.Length0 == rows && Xi.Length1 == cols
    ensures forall i, j :: 0 <= i < rows && 0 <= j < cols ==>
              Xi[i, j] == Sum2(Wr.Length0, Wr.Length1, WindowTerm(rotated, padded, i, j))
  {
    Xi := new real[rows, cols];
    for n1 := 0 to rows
      modifies Xi
      invariant forall i, j :: 0 <= i < n1 && 0 <= j < cols ==>
                  Xi[i, j] == Sum2(Wr.Length0, Wr.Length1, WindowTerm(rotated, padded, i, j))
    {
      for n2 := 0 to cols
        modifies Xi
        invariant forall i, j :: 0 <= i < n1 && 0 <= j < cols ==>
                    Xi[i, j] == Sum2(Wr.Length0, Wr.Length1, WindowTerm(rotated, padded, i, j))
        invariant forall j :: 0 <= j < n2 ==> Xi[n1, j] == Sum2(Wr.Length0, Wr.Length1, WindowTerm(rotated, padded, n1, j))
      {
        var s := Window(Hp, Wr, n1, n2, padded, rotated);
        Xi[n1, n2] := s;
      }
    }
  }

  /** `conv2`: the padded valid convolution of one channel. The output has the shape the
      loops range over, N1 - M1 + 1 + 2p rows and N2 - M2 + 1 + 2p columns (the source
      allocates N1 - M1 + 1 + 2p columns; see `Conv2AllocatedShapeAsWritten`), and entry
      (n1, n2) is the sum of W[M1-1-i, M2-1-j] * Hpadded[n1+i, n2+j] over the kernel. Every
      window read lies inside the padded buffer (the preconditions of `Window`). */
  method Conv2(H: array2<real>, W: array2<real>, padding: nat) returns (Xi: array2<real>)
    requires OutSize(H.Length0, W.Length0, padding) >= 0 && OutSize(H.Length1, W.Length1, padding) >= 0
    ensures (Xi.Length0, Xi.Length1) == Conv2LoopShape(H.Length0, H.Length1, W.Length0, W.Length1, padding)
    ensures forall n1, n2 :: 0 <= n1 < Xi.Length0 && 0 <= n2 < Xi.Length1 ==>
              Xi[n1, n2] == Conv2At(Snap2(H), Snap2(W), padding, n1, n2)
  {
    ghost var h, w := Snap2(H), Snap2(W);
    var Hp := Pad(H, padding);
    var Wr := Rotate(W);
    ghost var rotated, padded := Snap2(Wr), Snap2(Hp);
    assert Prepared(h, w, rotated, padded, padding) by {
      PaddedIsShifted(H, Hp, padding);
      RotatedIsRotation(W, Wr, w, rotated);
    }
    var rows, cols := H.Length0 - W.Length0 + 1 + 2 * padding, H.Length1 - W.Length1 + 1 + 2 * padding;
    Xi := Windows(Hp, Wr, rows, cols, padded, rotated);
    WindowsAreConv2(Xi, h, w, rotated, padded, padding);
  }

  /** If s is channel c of h and k is slice (c, d) of w, then `conv2(s, k, p)` at
      (n1, n2) is the sum of plane c of the `conv_layer` terms: channel d of the layer is
      the sum over c of `conv2(H[:, :, c], W[:, :, c, d], p)`. */
  lemma PlaneIsConv2(h: Tensor3, w: Tensor4, s: Tensor2, k: Tensor2, p: nat, n1: int, n2: int, c: int, d: int)
    requires forall r, q :: s.At(r, q) == h.At(r, q, c)
    requires k.d0 == w.d0 && k.d1 == w.d1
    requires forall i, j :: 0 <= i < w.d0 && 0 <= j < w.d1 ==> k.At(i, j) == w.At(i, j, c, d)
    ensures Conv2At(s, k, p, n1, n2) == Sum2(w.d0, w.d1, Plane(LayerTerm(h, w, p, n1, n2, d), c))
  {
    forall i, j | 0 <= i < w.d0 && 0 <= j < w.d1
      ensures Conv2Term(s, k, p, n1, n2)(i, j) == Plane(LayerTerm(h, w, p, n1, n2, d), c)(i, j)
    {
    }
    Sum2Congruent(w.d0, w.d1, Conv2Term(s, k, p, n1, n2), Plane(LayerTerm(h, w, p, n1, n2, d), c));
  }

  /** A copy of `H[:, :, c]`, read as a tensor, agrees with channel c of H everywhere. */
  lemma ChannelSnapshot(H: array3<real>, S: array2<real>, c: nat)
    requires S.Length0 == H.Length0 && S.Length1 == H.Length1 && c < H.Length2
    requires forall i, j :: 0 <= i < S.Length0 && 0 <= j < S.Length1 ==> S[i, j] == H[i, j, c]
    ensures forall r, q :: Snap2(S).At(r, q) == Snap3(H).At(r, q, c)
  {
    var s, h := Snap2(S), Snap3(H);
    forall r, q
      ensures s.At(r, q) == h.At(r, q, c)
    {
      if 0 <= r < S.Length0 && 0 <= q < S.Length1 {
        assert s.At(r, q) == S[r, q];
      }
    }
  }

  /** `Xi[:, :, d] += T` */
  method AccumulateChannel(Xi: array3<real>, d: nat, T: array2<real>)
    requires d < Xi.Length2 && T.Length0 == Xi.Length0 && T.Length1 == Xi.Length1
    modifies Xi
    ensures forall i, j, k :: 0 <= i < Xi.Length0 && 0 <= j < Xi.Length1 && 0 <= k < Xi.Length2 ==>
              Xi[i, j, k] == if k == d then old(Xi[i, j, k]) + T[i, j] else old(Xi[i, j, k])
  {
    var i := 0;
    while i < Xi.Length0
      invariant 0 <= i <= Xi.Length0
      invariant forall i', j, k :: 0 <= i' < Xi.Length0 && 0 <= j < Xi.Length1 && 0 <= k < Xi.Length2 ==>
                  Xi[i', j, k] == if k == d && i' < i then old(Xi[i', j, k]) + T[i', j] else old(Xi[i', j, k])
    {
      var j := 0;
      while j < Xi.Length1
        invariant 0 <= j <= Xi.Length1
        invariant forall i', j', k :: 0 <= i' < Xi.Length0 && 0 <= j' < Xi.Length1 && 0 <= k < Xi.Length2 ==>
                    Xi[i', j', k] == if k == d && (i' < i || (i' == i && j' < j)) then old(Xi[i', j', k]) + T[i', j']
                                     else old(Xi[i', j', k])
      {
        Xi[i, j, d] := Xi[i, j, d] + T[i, j];
        j := j + 1;
      }
      i := i + 1;
    }
  }

  /** One step of `conv_layer`'s channel loop:
      `Xi[:, :, d] += conv2(H[:, :, c], W[:, :, c, d], padding)`. */
  method AddChannel(Xi: array3<real>, H: array3<real>, W: array4<real>, padding: nat, c: nat, d: nat)
    requires c < W.Length2 <= H.Length2 && d < W.Length3 == Xi.Length2
    requires Xi.Length0 == OutSize(H.Length0, W.Length0, padding) >= 0
    requires Xi.Length1 == OutSize(H.Length1, W.Length1, padding) >= 0
    requires Xi != H
    modifies Xi
    ensures forall n1, n2, k :: 0 <= n1 < Xi.Length0 && 0 <= n2 < Xi.Length1 && 0 <= k < Xi.Length2 ==>
              Xi[n1, n2, k] == if k == d then old(Xi[n1, n2, k]) + Sum2(W.Length0, W.Length1, Plane(LayerTerm(Snap3(H), Snap4(W), padding, n1, n2, d), c))
                               else old(Xi[n1, n2, k])
  {
    var S := new real[H.Length0, H.Length1]((i, j) requires 0 <= i < H.Length0 && 0 <= j < H.Length1 reads H =>
                                              H[i, j, c]);
    var K := new real[W.Length0, W.Length1]((i, j) requires 0 <= i < W.Length0 && 0 <= j < W.Length1 reads W =>
                                              W[i, j, c, d]);
    var T := Conv2(S, K, padding);
    ghost var h, w := Snap3(H), Snap4(W);
    ChannelSnapshot(H, S, c);
    forall n1, n2 | 0 <= n1 < T.Length0 && 0 <= n2 < T.Length1
      ensures T[n1, n2] == Sum2(W.Length0, W.Length1, Plane(LayerTerm(h, w, padding, n1, n2, d), c))
    {
      PlaneIsConv2(h, w, Snap2(S), Snap2(K), padding, n1, n2, c, d);
    }
    AccumulateChannel(Xi, d, T);
  }

  /** `conv_layer`: output channel d is the sum over the kernel's input channels c of
      `conv2(H[:, :, c], W[:, :, c, d], padding)`; the output has shape
      (N1 - M1 + 1 + 2p, N2 - M2 + 1 + 2p, ND). The number of input channels is taken
      from W, so H may have more channels than W uses. */
  method ConvLayer(H: array3<real>, W: array4<real>, padding: nat) returns (Xi: array3<real>)
    requires W.Length2 <= H.Length2
    requires OutSize(H.Length0, W.Length0, padding) >= 0 && OutSize(H.Length1, W.Length1, padding) >= 0
    ensures Xi.Length0 == OutSize(H.Length0, W.Length0, padding)
    ensures Xi.Length1 == OutSize(H.Length1, W.Length1, padding)
    ensures Xi.Length2 == W.Length3
    ensures forall n1, n2, d :: 0 <= n1 < Xi.Length0 && 0 <= n2 < Xi.Length1 && 0 <= d < Xi.Length2 ==>
              Xi[n1, n2, d] == ConvLayerAt(Snap3(H), Snap4(W), padding, n1, n2, d)
  {
    ghost var h, w := Snap3(H), Snap4(W);
    var rows, cols := H.Length0 - W.Length0 + 1 + 2 * padding, H.Length1 - W.Length1 + 1 + 2 * padding;
    Xi := new real[rows, cols, W.Length3]((i, j, k) => 0.0);
    for d := 0 to W.Length3
      invariant forall n1, n2, k :: 0 <= n1 < rows && 0 <= n2 < cols && 0 <= k < W.Length3 ==>
                  Xi[n1, n2, k] == if k < d then ConvLayerAt(h, w, padding, n1, n2, k) else 0.0
    {
      for c := 0 to W.Length2
        invariant forall n1, n2, k :: 0 <= n1 < rows && 0 <= n2 < cols && 0 <= k < W.Length3 ==>
                    Xi[n1, n2, k] == if k < d then ConvLayerAt(h, w, padding, n1, n2, k)
                                     else if k == d then Sum3(c, W.Length0, W.Length1, LayerTerm(h, w, padding, n1, n2, d))
                                     else 0.0
      {
        AddChannel(Xi, H, W, padding, c, d);
      }
    }
  }

  /** The `(4, 4, 2)` input, `(3, 3, 2, 3)` kernel, padding 1 configuration gives a
      `(4, 4, 3)` output. */
  method ExampleShape(H: array3<real>, W: array4<real>) returns (Xi: array3<real>)
    requires H.Length0 == 4 && H.Length1 == 4 && H.Length2 == 2
    requires W.Length0 == 3 && W.Length1 == 3 && W.Length2 == 2 && W.Length3 == 3
    ensures Xi.Length0 == 4 && Xi.Length1 == 4 && Xi.Length2 == 3
  {
    Xi := ConvLayer(H, W, 1);
  }

  /** `conv2` is linear in its input image. */
  lemma Conv2LinearInInput(h: Tensor2, h': Tensor2, g: Tensor2, w: Tensor2, p: nat, n1: int, n2: int, a: real, b: real)
    requires forall r, c :: g.At(r, c) == a * h.At(r, c) + b * h'.At(r, c)
    ensures Conv2At(g, w, p, n1, n2) == a * Conv2At(h, w, p, n1, n2) + b * Conv2At(h', w, p, n1, n2)
  {
    var tg, th, th' := Conv2Term(g, w, p, n1, n2), Conv2Term(h, w, p, n1, n2), Conv2Term(h', w, p, n1, n2);
    forall i, j | 0 <= i < w.d0 && 0 <= j < w.d1
      ensures tg(i, j) == a * th(i, j) + b * th'(i, j)
    {
      var k := w.At(w.d0 - 1 - i, w.d1 - 1 - j);
      var x, y := h.At(n1 + i - p, n2 + j - p), h'.At(n1 + i - p, n2 + j - p);
      assert g.At(n1 + i - p, n2 + j - p) == a * x + b * y;
      assert k * (a * x + b * y) == a * (k * x) + b * (k * y);
    }
    Sum2Linear(w.d0, w.d1, th, th', tg, a, b);
  }

  /** `conv2` is linear in its kernel. */
  lemma Conv2LinearInKernel(h: Tensor2, w: Tensor2, w': Tensor2, v: Tensor2, p: nat, n1: int, n2: int, a: real, b: real)
    requires w'.d0 == w.d0 && w'.d1 == w.d1 && v.d0 == w.d0 && v.d1 == w.d1
    requires forall i, j :: 0 <= i < w.d0 && 0 <= j < w.d1 ==> v.At(i, j) == a * w.At(i, j) + b * w'.At(i, j)
    ensures Conv2At(h, v, p, n1, n2) == a * Conv2At(h, w, p, n1, n2) + b * Conv2At(h, w', p, n1, n2)
  {
    var tv, tw, tw' := Conv2Term(h, v, p, n1, n2), Conv2Term(h, w, p, n1, n2), Conv2Term(h, w', p, n1, n2);
    forall i, j | 0 <= i < w.d0 && 0 <= j < w.d1
      ensures tv(i, j) == a * tw(i, j) + b * tw'(i, j)
    {
      var x := h.At(n1 + i - p, n2 + j - p);
      var k, k' := w.At(w.d0 - 1 - i, w.d1 - 1 - j), w'.At(w.d0 - 1 - i, w.d1 - 1 - j);
      assert v.At(w.d0 - 1 - i, w.d1 - 1 - j) == a * k + b * k';
      assert (a * k + b * k') * x == a * (k * x) + b * (k' * x);
    }
    Sum2Linear(w.d0, w.d1, tw, tw', tv, a, b);
  }

  lemma LayerTermLinearInInput(h: Tensor3, h': Tensor3, g: Tensor3, w: Tensor4, p: nat,
                               n1: int, n2: int, d: int, a: real, b: real)
    requires forall i, j, c :: g.At(i, j, c) == a * h.At(i, j, c) + b * h'.At(i, j, c)
    ensures forall c, i, j :: LayerTerm(g, w, p, n1, n2, d)(c, i, j)
                              == a * LayerTerm(h, w, p, n1, n2, d)(c, i, j) + b * LayerTerm(h', w, p, n1, n2, d)(c, i, j)
  {
    forall c, i, j
      ensures LayerTerm(g, w, p, n1, n2, d)(c, i, j)
              == a * LayerTerm(h, w, p, n1, n2, d)(c, i, j) + b * LayerTerm(h', w, p, n1, n2, d)(c, i, j)
    {
      var k := w.At(w.d0 - 1 - i, w.d1 - 1 - j, c, d);
      var x, y := h.At(n1 + i - p, n2 + j - p, c), h'.At(n1 + i - p, n2 + j - p, c);
      assert g.At(n1 + i - p, n2 + j - p, c) == a * x + b * y;
      assert k * (a * x + b * y) == a * (k * x) + b * (k * y);
    }
  }

  lemma LayerTermLinearInKernel(h: Tensor3, w: Tensor4, w': Tensor4, v: Tensor4, p: nat,
                                n1: int, n2: int, d: int, a: real, b: real)
    requires v.d0 == w.d0 && v.d1 == w.d1 && w'.d0 == w.d0 && w'.d1 == w.d1
    requires forall i, j, c, k :: v.At(i, j, c, k) == a * w.At(i, j, c, k) + b * w'.At(i, j, c, k)
    ensures forall c, i, j :: LayerTerm(h, v, p, n1, n2, d)(c, i, j)
                              == a * LayerTerm(h, w, p, n1, n2, d)(c, i, j) + b * LayerTerm(h, w', p, n1, n2, d)(c, i, j)
  {
    forall c, i, j
      ensures LayerTerm(h, v, p, n1, n2, d)(c, i, j)
              == a * LayerTerm(h, w, p, n1, n2, d)(c, i, j) + b * LayerTerm(h, w', p, n1, n2, d)(c, i, j)
    {
      var x := h.At(n1 + i - p, n2 + j - p, c);
      var k, k' := w.At(w.d0 - 1 - i, w.d1 - 1 - j, c, d), w'.At(w.d0 - 1 - i, w.d1 - 1 - j, c, d);
      assert v.At(w.d0 - 1 - i, w.d1 - 1 - j, c, d) == a * k + b * k';
      assert (a * k + b * k') * x == a * (k * x) + b * (k' * x);
    }
  }

  /** `conv_layer` is linear in its input: the layer of a * h + b * h' is a times the
      layer of h plus b times the layer of h'. */
  lemma ConvLayerLinearInInput(h: Tensor3, h': Tensor3, g: Tensor3, w: Tensor4, p: nat,
                               n1: int, n2: int, d: int, a: real, b: real)
    requires forall i, j, c :: g.At(i, j, c) == a * h.At(i, j, c) + b * h'.At(i, j, c)
    ensures ConvLayerAt(g, w, p, n1, n2, d) == a * ConvLayerAt(h, w, p, n1, n2, d) + b * ConvLayerAt(h', w, p, n1, n2, d)
  {
    LayerTermLinearInInput(h, h', g, w, p, n1, n2, d, a, b);
    Sum3Linear(w.d2, w.d0, w.d1, LayerTerm(h, w, p, n1, n2, d), LayerTerm(h', w, p, n1, n2, d),
               LayerTerm(g, w, p, n1, n2, d), a, b);
  }

  /** `conv_layer` is linear in its kernel. */
  lemma ConvLayerLinearInKernel(h: Tensor3, w: Tensor4, w': Tensor4, v: Tensor4, p: nat,
                                n1: int, n2: int, d: int, a: real, b: real)
    requires w'.d0 == w.d0 && w'.d1 == w.d1 && w'.d2 == w.d2
    requires v.d0 == w.d0 && v.d1 == w.d1 && v.d2 == w.d2
    requires forall i, j, c, k :: v.At(i, j, c, k) == a * w.At(i, j, c, k) + b * w'.At(i, j, c, k)
    ensures ConvLayerAt(h, v, p, n1, n2, d) == a * ConvLayerAt(h, w, p, n1, n2, d) + b * ConvLayerAt(h, w', p, n1, n2, d)
  {
    LayerTermLinearInKernel(h, w, w', v, p, n1, n2, d, a, b);
    Sum3Linear(w.d2, w.d0, w.d1, LayerTerm(h, w, p, n1, n2, d), LayerTerm(h, w', p, n1, n2, d),
               LayerTerm(h, v, p, n1, n2, d), a, b);
  }

  /** The shape `conv2` allocates for its output as written: N1 - M1 + 1 + 2p rows and
      as many columns, whatever N2 and M2 are. */
  function Conv2AllocatedShapeAsWritten(n1: nat, n2: nat, m1: nat, m2: nat, p: nat): (s: (int, int))
    ensures s.0 == s.1
    ensures s.0 == Conv2LoopShape(n1, n2, m1, m2, p).0
  {
    (OutSize(n1, m1, p), OutSize(n1, m1, p))
  }

  /** The range of (n1, n2) that `conv2`'s loops write, one past the last index on each
      axis; `Conv2` allocates exactly this shape. */
  function Conv2LoopShape(n1: nat, n2: nat, m1: nat, m2: nat, p: nat): (int, int)
  {
    (OutSize(n1, m1, p), OutSize(n2, m2, p))
  }

  /** As written, the allocation fits the loops exactly when N1 - M1 == N2 - M2. */
  lemma AllocationFitsLoopsIff(n1: nat, n2: nat, m1: nat, m2: nat, p: nat)
    ensures Conv2AllocatedShapeAsWritten(n1, n2, m1, m2, p) == Conv2LoopShape(n1, n2, m1, m2, p) <==> n1 - m1 == n2 - m2
  {
  }

  /** A 4 x 5 image with a 3 x 3 kernel and padding 1: the column loop reaches index 4,
      which lies outside the 4 columns allocated as written. */
  lemma Conv2ColumnOverrunAsWritten()
    ensures Conv2LoopShape(4, 5, 3, 3, 1).1 - 1 >= Conv2AllocatedShapeAsWritten(4, 5, 3, 3, 1).1
  {
  }
}
