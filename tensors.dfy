/** Dense tensors as values. The operations keep their tensors in multi-dimensional
    arrays, as the source keeps them in numpy arrays; their specifications speak about a
    snapshot of each array: its dimensions and its entries as nested sequences.
    `At` reads an entry and gives 0 for an index outside the tensor, which is exactly
    the value of a zero-padded tensor there. */
module Tensors {

  datatype Tensor2 = Tensor2(d0: nat, d1: nat, data: seq<seq<real>>)
  {
    ghost predicate Valid() {
      |data| == d0 && forall i :: 0 <= i < d0 ==> |data[i]| == d1
    }

    function At(i: int, j: int): (r: real)
      ensures Valid() && !(0 <= i < d0 && 0 <= j < d1) ==> r == 0.0
    {
      if 0 <= i < |data| && 0 <= j < |data[i]| then data[i][j] else 0.0
    }
  }

  datatype Tensor3 = Tensor3(d0: nat, d1: nat, d2: nat, data: seq<seq<seq<real>>>)
  {
    ghost predicate Valid() {
      && |data| == d0
      && (forall i :: 0 <= i < d0 ==> |data[i]| == d1)
      && (forall i, j :: 0 <= i < d0 && 0 <= j < d1 ==> |data[i][j]| == d2)
    }

    function At(i: int, j: int, k: int): (r: real)
      ensures Valid() && !(0 <= i < d0 && 0 <= j < d1 && 0 <= k < d2) ==> r == 0.0
    {
      if 0 <= i < |data| && 0 <= j < |data[i]| && 0 <= k < |data[i][j]| then data[i][j][k] else 0.0
    }
  }

  datatype Tensor4 = Tensor4(d0: nat, d1: nat, d2: nat, d3: nat, data: seq<seq<seq<seq<real>>>>)
  {
    ghost predicate Valid() {
      && |data| == d0
      && (forall i :: 0 <= i < d0 ==> |data[i]| == d1)
      && (forall i, j :: 0 <= i < d0 && 0 <= j < d1 ==> |data[i][j]| == d2)
      && (forall i, j, k :: 0 <= i < d0 && 0 <= j < d1 && 0 <= k < d2 ==> |data[i][j][k]| == d3)
    }

    function At(i: int, j: int, k: int, l: int): (r: real)
      ensures Valid() && !(0 <= i < d0 && 0 <= j < d1 && 0 <= k < d2 && 0 <= l < d3) ==> r == 0.0
    {
      if 0 <= i < |data| && 0 <= j < |data[i]| && 0 <= k < |data[i][j]| && 0 <= l < |data[i][j][k]|
      then data[i][j][k][l] else 0.0
    }
  }

  datatype Tensor5 = Tensor5(d0: nat, d1: nat, d2: nat, d3: nat, d4: nat, data: seq<seq<seq<seq<seq<real>>>>>)
  {
    function At(i: int, j: int, k: int, l: int, m: int): real
    {
      if 0 <= i < |data| && 0 <= j < |data[i]| && 0 <= k < |data[i][j]| && 0 <= l < |data[i][j][k]|
         && 0 <= m < |data[i][j][k][l]|
      then data[i][j][k][l][m] else 0.0
    }
  }

  /** t holds the current contents of array a: same shape, same entries. */
  ghost predicate Views2(t: Tensor2, a: array2<real>)
    reads a
  {
    && t.Valid() && t.d0 == a.Length0 && t.d1 == a.Length1
    && forall i, j :: 0 <= i < a.Length0 && 0 <= j < a.Length1 ==> t.At(i, j) == a[i, j]
  }

  ghost predicate Views3(t: Tensor3, a: array3<real>)
    reads a
  {
    && t.Valid() && t.d0 == a.Length0 && t.d1 == a.Length1 && t.d2 == a.Length2
    && forall i, j, k :: 0 <= i < a.Length0 && 0 <= j < a.Length1 && 0 <= k < a.Length2 ==> t.At(i, j, k) == a[i, j, k]
  }

  ghost predicate Views4(t: Tensor4, a: array4<real>)
    reads a
  {
    && t.Valid() && t.d0 == a.Length0 && t.d1 == a.Length1 && t.d2 == a.Length2 && t.d3 == a.Length3
    && forall i, j, k, l :: 0 <= i < a.Length0 && 0 <= j < a.Length1 && 0 <= k < a.Length2 && 0 <= l < a.Length3 ==>
         t.At(i, j, k, l) == a[i, j, k, l]
  }

  ghost predicate Views5(t: Tensor5, a: array5<real>)
    reads a
  {
    && t.d0 == a.Length0 && t.d1 == a.Length1 && t.d2 == a.Length2 && t.d3 == a.Length3 && t.d4 == a.Length4
    && forall i, j, k, l, m ::
         0 <= i < a.Length0 && 0 <= j < a.Length1 && 0 <= k < a.Length2 && 0 <= l < a.Length3 && 0 <= m < a.Length4 ==>
         t.At(i, j, k, l, m) == a[i, j, k, l, m]
  }

  /** The current contents of a two-dimensional array. */
  function Snap2(a: array2<real>): (t: Tensor2)
    reads a
    ensures Views2(t, a)
  {
    Tensor2(a.Length0, a.Length1,
      seq(a.Length0, i requires 0 <= i < a.Length0 reads a =>
        seq(a.Length1, j requires 0 <= j < a.Length1 reads a => a[i, j])))
  }

  /** The current contents of a three-dimensional array (and so on). */
  function Snap3(a: array3<real>): (t: Tensor3)
    reads a
    ensures Views3(t, a)
  {
    Tensor3(a.Length0, a.Length1, a.Length2,
      seq(a.Length0, i requires 0 <= i < a.Length0 reads a =>
        seq(a.Length1, j requires 0 <= j < a.Length1 reads a =>
          seq(a.Length2, k requires 0 <= k < a.Length2 reads a => a[i, j, k]))))
  }

  function Snap4(a: array4<real>): (t: Tensor4)
    reads a
    ensures Views4(t, a)
  {
    Tensor4(a.Length0, a.Length1, a.Length2, a.Length3,
      seq(a.Length0, i requires 0 <= i < a.Length0 reads a =>
        seq(a.Length1, j requires 0 <= j < a.Length1 reads a =>
          seq(a.Length2, k requires 0 <= k < a.Length2 reads a =>
            seq(a.Length3, l requires 0 <= l < a.Length3 reads a => a[i, j, k, l])))))
  }

  function Snap5(a: array5<real>): (t: Tensor5)
    reads a
    ensures Views5(t, a)
  {
    Tensor5(a.Length0, a.Length1, a.Length2, a.Length3, a.Length4,
      seq(a.Length0, i requires 0 <= i < a.Length0 reads a =>
        seq(a.Length1, j requires 0 <= j < a.Length1 reads a =>
          seq(a.Length2, k requires 0 <= k < a.Length2 reads a =>
            seq(a.Length3, l requires 0 <= l < a.Length3 reads a =>
              seq(a.Length4, m requires 0 <= m < a.Length4 reads a => a[i, j, k, l, m]))))))
  }
}
