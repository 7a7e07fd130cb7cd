/** `detect`: the top-scoring rectangles of one image. Every grid position (n1, n2, na)
    is visited in loop order and stored in a dictionary keyed by its face score, so a
    later position with an equal score replaces an earlier one. The keys are sorted in
    decreasing order, the first K are kept, and row i of the K x 4 result is the
    rectangle decoded from the i-th of them; rows with no key stay zero. */
module Detect {
  import opened Numeric
  import opened Tensors
  import opened Boxes

  /** A grid position: cell (n1, n2), anchor na. */
  datatype Pos = Pos(n1: int, n2: int, na: int)

  /** p is visited before q by the loops over n1, then n2, then na. */
  predicate Before(p: Pos, q: Pos) {
    p.n1 < q.n1 || (p.n1 == q.n1 && (p.n2 < q.n2 || (p.n2 == q.n2 && p.na < q.na)))
  }

  predicate InGrid(p: Pos, d0: int, d1: int, d2: int) {
    0 <= p.n1 < d0 && 0 <= p.n2 < d1 && 0 <= p.na < d2
  }

  /** What the loop reads at one position: the face score `Yhat[n1, n2, na, 4]`, the
      regression target `Yhat[n1, n2, na, 0:4]` and the anchor `anchors[n1, n2, na, :]`. */
  datatype Candidate = Candidate(pos: Pos, score: real, reg: Box, anchor: Box)

  function CandidateAt(y: Tensor4, an: Tensor4, p: Pos): Candidate {
    Candidate(p, y.At(p.n1, p.n2, p.na, 4),
              Box(y.At(p.n1, p.n2, p.na, 0), y.At(p.n1, p.n2, p.na, 1), y.At(p.n1, p.n2, p.na, 2), y.At(p.n1, p.n2, p.na, 3)),
              Box(an.At(p.n1, p.n2, p.na, 0), an.At(p.n1, p.n2, p.na, 1), an.At(p.n1, p.n2, p.na, 2), an.At(p.n1, p.n2, p.na, 3)))
  }

  /** The candidates of anchors 0, ..., count - 1 of cell (n1, n2), in loop order. */
  function CellCandidates(y: Tensor4, an: Tensor4, n1: int, n2: int, count: nat): seq<Candidate> {
    if count == 0 then [] else CellCandidates(y, an, n1, n2, count - 1) + [CandidateAt(y, an, Pos(n1, n2, count - 1))]
  }

  /** The candidates of cells (n1, 0), ..., (n1, count - 1), in loop order. */
  function RowCandidates(y: Tensor4, an: Tensor4, n1: int, count: nat): seq<Candidate> {
    if count == 0 then [] else RowCandidates(y, an, n1, count - 1) + CellCandidates(y, an, n1, count - 1, y.d2)
  }

  /** The candidates of rows 0, ..., count - 1, in loop order. */
  function GridCandidates(y: Tensor4, an: Tensor4, count: nat): seq<Candidate> {
    if count == 0 then [] else GridCandidates(y, an, count - 1) + RowCandidates(y, an, count - 1, y.d1)
  }

  /** Everything the dictionary loop visits, in the order it visits it. */
  function Candidates(y: Tensor4, an: Tensor4): seq<Candidate> {
    GridCandidates(y, an, y.d0)
  }

  predicate InLoopOrder(cs: seq<Candidate>) {
    forall i, j :: 0 <= i < j < |cs| ==> Before(cs[i].pos, cs[j].pos)
  }

  /** Every candidate lies in the region and reads the tensors at its own position. */
  ghost predicate ReadsAt(cs: seq<Candidate>, y: Tensor4, an: Tensor4) {
    forall c :: c in cs ==> c == CandidateAt(y, an, c.pos)
  }

  lemma OrderedConcat(a: seq<Candidate>, b: seq<Candidate>)
    requires InLoopOrder(a) && InLoopOrder(b)
    requires forall c, d :: c in a && d in b ==> Before(c.pos, d.pos)
    ensures InLoopOrder(a + b)
  {
    forall i, j | 0 <= i < j < |a + b|
      ensures Before((a + b)[i].pos, (a + b)[j].pos)
    {
      if j < |a| {
      } else if i >= |a| {
        assert (a + b)[i] == b[i - |a|] && (a + b)[j] == b[j - |a|];
      } else {
        assert (a + b)[i] in a && (a + b)[j] in b;
      }
    }
  }

  lemma {:induction false} CellEnumerates(y: Tensor4, an: Tensor4, n1: int, n2: int, count: nat)
    ensures InLoopOrder(CellCandidates(y, an, n1, n2, count))
    ensures ReadsAt(CellCandidates(y, an, n1, n2, count), y, an)
    ensures forall c :: c in CellCandidates(y, an, n1, n2, count) ==> c.pos.n1 == n1 && c.pos.n2 == n2 && 0 <= c.pos.na < count
    ensures forall na :: 0 <= na < count ==> CandidateAt(y, an, Pos(n1, n2, na)) in CellCandidates(y, an, n1, n2, count)
  {
    if count > 0 {
      var prev := CellCandidates(y, an, n1, n2, count - 1);
      CellEnumerates(y, an, n1, n2, count - 1);
      OrderedConcat(prev, [CandidateAt(y, an, Pos(n1, n2, count - 1))]);
    }
  }

  lemma {:induction false} RowEnumerates(y: Tensor4, an: Tensor4, n1: int, count: nat)
    ensures InLoopOrder(RowCandidates(y, an, n1, count))
    ensures ReadsAt(RowCandidates(y, an, n1, count), y, an)
    ensures forall c :: c in RowCandidates(y, an, n1, count) ==> c.pos.n1 == n1 && 0 <= c.pos.n2 < count && 0 <= c.pos.na < y.d2
    ensures forall n2, na :: 0 <= n2 < count && 0 <= na < y.d2 ==> CandidateAt(y, an, Pos(n1, n2, na)) in RowCandidates(y, an, n1, count)
  {
    if count > 0 {
      var prev := RowCandidates(y, an, n1, count - 1);
      var cell := CellCandidates(y, an, n1, count - 1, y.d2);
      RowEnumerates(y, an, n1, count - 1);
      CellEnumerates(y, an, n1, count - 1, y.d2);
      OrderedConcat(prev, cell);
    }
  }

  lemma {:induction false} GridEnumerates(y: Tensor4, an: Tensor4, count: nat)
    ensures InLoopOrder(GridCandidates(y, an, count))
    ensures ReadsAt(GridCandidates(y, an, count), y, an)
    ensures forall c :: c in GridCandidates(y, an, count) ==> InGrid(c.pos, count, y.d1, y.d2)
  {
    if count > 0 {
      var prev := GridCandidates(y, an, count - 1);
      var row := RowCandidates(y, an, count - 1, y.d1);
      assert GridCandidates(y, an, count) == prev + row;
      GridEnumerates(y, an, count - 1);
      RowEnumerates(y, an, count - 1, y.d1);
      OrderedConcat(prev, row);
    }
  }

  lemma {:induction false} GridCovers(y: Tensor4, an: Tensor4, count: nat)
    ensures forall p :: InGrid(p, count, y.d1, y.d2) ==> CandidateAt(y, an, p) in GridCandidates(y, an, count)
  {
    if count > 0 {
      var prev := GridCandidates(y, an, count - 1);
      var row := RowCandidates(y, an, count - 1, y.d1);
      assert GridCandidates(y, an, count) == prev + row;
      GridCovers(y, an, count - 1);
      RowEnumerates(y, an, count - 1, y.d1);
      forall p | InGrid(p, count, y.d1, y.d2)
        ensures CandidateAt(y, an, p) in prev + row
      {
        if p.n1 == count - 1 {
          assert CandidateAt(y, an, Pos(p.n1, p.n2, p.na)) in row;
        } else {
          assert InGrid(p, count - 1, y.d1, y.d2);
        }
      }
    }
  }

  /** The dictionary loop visits every grid position exactly once, in n1, n2, na order,
      and reads each at its own position. */
  lemma CandidatesEnumerateGrid(y: Tensor4, an: Tensor4)
    ensures InLoopOrder(Candidates(y, an))
    ensures ReadsAt(Candidates(y, an), y, an)
    ensures forall c :: c in Candidates(y, an) ==> InGrid(c.pos, y.d0, y.d1, y.d2)
    ensures forall p :: InGrid(p, y.d0, y.d1, y.d2) ==> CandidateAt(y, an, p) in Candidates(y, an)
  {
    GridEnumerates(y, an, y.d0);
    GridCovers(y, an, y.d0);
  }

  predicate Distinct(r: seq<real>) {
    forall i, j :: 0 <= i < j < |r| ==> r[i] != r[j]
  }

  /** A Python dict from scores to (regression target, anchor) pairs: the keys in
      insertion order, and the mapping. */
  datatype Dict = Dict(keys: seq<real>, values: map<real, (Box, Box)>)
  {
    ghost predicate Valid() {
      Distinct(keys) && forall s :: s in values <==> s in keys
    }
  }

  /** `d[k] = v`: an existing key keeps its place and takes the new value; a new key
      goes last. */
  function Put(d: Dict, k: real, v: (Box, Box)): (r: Dict)
    ensures d.Valid() ==> r.Valid()
    ensures r.values == d.values[k := v]
    ensures |d.keys| <= |r.keys| && r.keys[..|d.keys|] == d.keys
  {
    if k in d.values then Dict(d.keys, d.values[k := v]) else Dict(d.keys + [k], d.values[k := v])
  }

  /** The dictionary after storing every candidate in order. */
  function DictOf(cs: seq<Candidate>): (d: Dict)
  {
    if cs == [] then Dict([], map[])
    else
      var last := cs[|cs| - 1];
      var prev := cs[..|cs| - 1];
      assert cs == prev + [last];
      Put(DictOf(prev), last.score, (last.reg, last.anchor))
  }

  /** The stored dictionary is well formed: distinct keys, each with a value. */
  lemma {:induction false} DictOfValid(cs: seq<Candidate>)
    ensures DictOf(cs).Valid()
  {
    if cs != [] {
      DictOfValid(cs[..|cs| - 1]);
    }
  }

  /** The keys of the dictionary are exactly the scores that occur. */
  lemma {:induction false} DictKeysAreScores(cs: seq<Candidate>)
    ensures forall s :: s in DictOf(cs).values <==> exists c :: c in cs && c.score == s
  {
    if cs != [] {
      var prev := cs[..|cs| - 1];
      DictKeysAreScores(prev);
      assert cs == prev + [cs[|cs| - 1]];
    }
  }

  /** The value stored under a score is that of the last candidate with that score. */
  lemma {:induction false} DictLastWins(cs: seq<Candidate>, i: int)
    requires 0 <= i < |cs|
    requires forall j :: i < j < |cs| ==> cs[j].score != cs[i].score
    ensures cs[i].score in DictOf(cs).values && DictOf(cs).values[cs[i].score] == (cs[i].reg, cs[i].anchor)
  {
    var prev := cs[..|cs| - 1];
    if i < |cs| - 1 {
      DictLastWins(prev, i);
    }
  }

  predicate Descending(r: seq<real>) {
    forall i, j :: 0 <= i < j < |r| ==> r[i] > r[j]
  }

  /** One step of sorting in decreasing order. */
  function InsertDesc(x: real, r: seq<real>): (q: seq<real>)
    ensures multiset(q) == multiset(r) + multiset{x}
  {
    if r == [] then [x]
    else if x > r[0] then [x] + r
    else
      assert r == [r[0]] + r[1..];
      [r[0]] + InsertDesc(x, r[1..])
  }

  /** Inserting a new key into keys in decreasing order keeps them in decreasing order. */
  lemma {:induction false} InsertDescKeepsOrder(x: real, r: seq<real>)
    requires Descending(r) && x !in r
    ensures Descending(InsertDesc(x, r))
  {
    if r != [] && x <= r[0] {
      var t := InsertDesc(x, r[1..]);
      InsertDescKeepsOrder(x, r[1..]);
      var q := InsertDesc(x, r);
      assert q == [r[0]] + t;
      forall j | 1 <= j < |q|
        ensures q[0] > q[j]
      {
        assert q[j] == t[j - 1];
        assert q[j] in multiset(r[1..]) + multiset{x};
        if q[j] != x {
          assert q[j] in r[1..];
        }
      }
    }
  }

  /** `sorted(..., reverse=True)` on keys: the same keys, in decreasing order when they
      are distinct. */
  function SortDesc(r: seq<real>): (q: seq<real>)
    ensures multiset(q) == multiset(r)
    ensures Distinct(r) ==> Descending(q)
  {
    if r == [] then []
    else
      assert r == [r[0]] + r[1..];
      var t := SortDesc(r[1..]);
      if Distinct(r) then
        assert r[0] !in multiset(r[1..]);
        InsertDescKeepsOrder(r[0], t);
        InsertDesc(r[0], t)
      else
        InsertDesc(r[0], t)
  }

  /** The sorted keys of a dictionary: exactly its keys, strictly decreasing. */
  lemma SortedKeys(d: Dict)
    requires d.Valid()
    ensures Descending(SortDesc(d.keys))
    ensures forall s :: s in SortDesc(d.keys) <==> s in d.values
  {
    forall s
      ensures s in SortDesc(d.keys) <==> s in d.values
    {
      assert s in SortDesc(d.keys) <==> s in multiset(d.keys);
    }
  }

  /** In a strictly decreasing sequence, the elements larger than the i-th are exactly
      the i elements before it. */
  lemma DescendingRank(r: seq<real>)
    requires Descending(r)
    ensures forall i, s :: 0 <= i < |r| && s in r ==> (s > r[i] <==> s in r[..i])
  {
    forall i, s | 0 <= i < |r| && s in r
      ensures s > r[i] <==> s in r[..i]
    {
      var j :| 0 <= j < |r| && r[j] == s;
      if j < i {
        assert r[..i][j] == s;
      }
    }
  }

  /** The first K keys of a dictionary in decreasing order, as rows: row i is the
      rectangle stored under the i-th largest key, or zero when there is no such key. */
  function Selected(e: ExpLog, d: Dict, i: int): (b: Box)
    requires d.Valid()
    ensures !(0 <= i < |d.keys|) ==> b == Box(0.0, 0.0, 0.0, 0.0)
  {
    var r := SortDesc(d.keys);
    if 0 <= i < |r| then
      assert r[i] in multiset(d.keys);
      var v := d.values[r[i]];
      Rect(e, v.0, v.1)
    else
      Box(0.0, 0.0, 0.0, 0.0)
  }

  /** The scores that occur, distinct and in decreasing order. */
  function Ranked(y: Tensor4, an: Tensor4): seq<real> {
    SortDesc(DictOf(Candidates(y, an)).keys)
  }

  /** Row i of the result of `detect` on outputs y and anchors an. */
  function Detection(e: ExpLog, y: Tensor4, an: Tensor4, i: int): (b: Box)
    ensures !(0 <= i < |Ranked(y, an)|) ==> b == Box(0.0, 0.0, 0.0, 0.0)
  {
    DictOfValid(Candidates(y, an));
    Selected(e, DictOf(Candidates(y, an)), i)
  }

  /** Row i of a K x 4 array, as a rectangle. */
  function BoxAt(a: array2<real>, i: int): Box
    requires 0 <= i < a.Length0 && a.Length1 == 4
    reads a
  {
    Box(a[i, 0], a[i, 1], a[i, 2], a[i, 3])
  }

  /** `detect(Yhat, number_to_return, anchors)`: K rows, row i being `Detection`. */
  method Detect(e: ExpLog, Yhat: array4<real>, K: nat, anchors: array4<real>) returns (best: array2<real>)
    requires 5 <= Yhat.Length3
    requires Yhat.Length0 <= anchors.Length0 && Yhat.Length1 <= anchors.Length1 && Yhat.Length2 <= anchors.Length2
    requires 4 <= anchors.Length3
    ensures best.Length0 == K && best.Length1 == 4
    ensures forall i :: 0 <= i < K ==> BoxAt(best, i) == Detection(e, Snap4(Yhat), Snap4(anchors), i)
  {
    best := new real[K, 4]((i, j) => 0.0);
    var pairs := Collect(Yhat, anchors, Snap4(Yhat), Snap4(anchors));
    DictOfValid(Candidates(Snap4(Yhat), Snap4(anchors)));
    var ranked := SortDesc(pairs.keys);
    var top := if K < |ranked| then ranked[..K] else ranked;
    for index := 0 to |top|
      invariant forall i :: 0 <= i < K ==> BoxAt(best, i) == if i < index then Selected(e, pairs, i) else Box(0.0, 0.0, 0.0, 0.0)
    {
      assert top[index] == ranked[index] && ranked[index] in multiset(pairs.keys);
      var pair := pairs.values[top[index]];
      var r := Rect(e, pair.0, pair.1);
      assert r == Selected(e, pairs, index);
      WriteRow(best, index, r);
    }
  }

  /** `best_rects[index] = ...` for a rectangle. */
  method WriteRow(best: array2<real>, index: nat, r: Box)
    requires index < best.Length0 && best.Length1 == 4
    modifies best
    ensures forall i :: 0 <= i < best.Length0 ==> BoxAt(best, i) == if i == index then r else old(BoxAt(best, i))
  {
    best[index, 0], best[index, 1], best[index, 2], best[index, 3] := r.x, r.y, r.w, r.h;
  }

  /** The dictionary loop of `detect`: `pair_dict[yhat[4]] = (yhat[0:4], anc)` at every
      position in loop order. */
  method Collect(Yhat: array4<real>, anchors: array4<real>, ghost y: Tensor4, ghost an: Tensor4) returns (pairs: Dict)
    requires Views4(y, Yhat) && Views4(an, anchors)
    requires Yhat.Length0 <= anchors.Length0 && Yhat.Length1 <= anchors.Length1 && Yhat.Length2 <= anchors.Length2
    requires 5 <= Yhat.Length3 && 4 <= anchors.Length3
    ensures pairs == DictOf(Candidates(y, an))
  {
    pairs := Dict([], map[]);
    ghost var seen: seq<Candidate> := [];
    for n1 := 0 to Yhat.Length0
      invariant seen == GridCandidates(y, an, n1) && pairs == DictOf(seen)
    {
      pairs, seen := CollectRow(Yhat, anchors, n1, pairs, seen, y, an);
    }
  }

  /** The loops over n2 and na for one n1. */
  method CollectRow(Yhat: array4<real>, anchors: array4<real>, n1: nat, pairs0: Dict, ghost seen0: seq<Candidate>,
                    ghost y: Tensor4, ghost an: Tensor4)
    returns (pairs: Dict, ghost seen: seq<Candidate>)
    requires Views4(y, Yhat) && Views4(an, anchors) && pairs0 == DictOf(seen0)
    requires n1 < Yhat.Length0 <= anchors.Length0 && Yhat.Length1 <= anchors.Length1 && Yhat.Length2 <= anchors.Length2
    requires 5 <= Yhat.Length3 && 4 <= anchors.Length3
    ensures seen == seen0 + RowCandidates(y, an, n1, y.d1) && pairs == DictOf(seen)
    ensures pairs == DictOf(seen0 + RowCandidates(y, an, n1, y.d1))
  {
    pairs, seen := pairs0, seen0;
    for n2 := 0 to Yhat.Length1
      invariant seen == seen0 + RowCandidates(y, an, n1, n2)
      invariant pairs == DictOf(seen)
    {
      pairs, seen := CollectCell(Yhat, anchors, n1, n2, pairs, seen, y, an);
      RowStep(y, an, seen0, n1, n2);
    }
  }

  /** The loop over na for one cell (n1, n2). */
  method CollectCell(Yhat: array4<real>, anchors: array4<real>, n1: nat, n2: nat, pairs0: Dict, ghost seen0: seq<Candidate>,
                     ghost y: Tensor4, ghost an: Tensor4)
    returns (pairs: Dict, ghost seen: seq<Candidate>)
    requires Views4(y, Yhat) && Views4(an, anchors) && pairs0 == DictOf(seen0)
    requires n1 < Yhat.Length0 <= anchors.Length0 && n2 < Yhat.Length1 <= anchors.Length1 && Yhat.Length2 <= anchors.Length2
    requires 5 <= Yhat.Length3 && 4 <= anchors.Length3
    ensures seen == seen0 + CellCandidates(y, an, n1, n2, y.d2) && pairs == DictOf(seen)
    ensures pairs == DictOf(seen0 + CellCandidates(y, an, n1, n2, y.d2))
  {
    pairs, seen := pairs0, seen0;
    for na := 0 to Yhat.Length2
      invariant seen == seen0 + CellCandidates(y, an, n1, n2, na)
      invariant pairs == DictOf(seen)
    {
      var c := VisitAt(Yhat, anchors, n1, n2, na, y, an);
      ghost var before := seen;
      pairs := Put(pairs, c.score, (c.reg, c.anchor));
      seen := seen + [c];
      assert seen[..|seen| - 1] == before;
      CellStep(y, an, seen0, n1, n2, na);
    }
  }

  lemma RowStep(y: Tensor4, an: Tensor4, prefix: seq<Candidate>, n1: int, n2: nat)
    ensures prefix + RowCandidates(y, an, n1, n2) + CellCandidates(y, an, n1, n2, y.d2) == prefix + RowCandidates(y, an, n1, n2 + 1)
  {
  }

  lemma CellStep(y: Tensor4, an: Tensor4, prefix: seq<Candidate>, n1: int, n2: int, na: nat)
    ensures prefix + CellCandidates(y, an, n1, n2, na) + [CandidateAt(y, an, Pos(n1, n2, na))] == prefix + CellCandidates(y, an, n1, n2, na + 1)
  {
  }

  /** The body of the dictionary loop up to the store: `yhat[4]`, `yhat[0:4]` and `anc`
      at (n1, n2, na). */
  method VisitAt(Yhat: array4<real>, anchors: array4<real>, n1: nat, n2: nat, na: nat, ghost y: Tensor4, ghost an: Tensor4)
    returns (c: Candidate)
    requires Views4(y, Yhat) && Views4(an, anchors)
    requires n1 < Yhat.Length0 <= anchors.Length0 && n2 < Yhat.Length1 <= anchors.Length1
    requires na < Yhat.Length2 <= anchors.Length2 && 5 <= Yhat.Length3 && 4 <= anchors.Length3
    ensures c == CandidateAt(y, an, Pos(n1, n2, na))
  {
    c := Candidate(Pos(n1, n2, na), Yhat[n1, n2, na, 4],
                   Box(Yhat[n1, n2, na, 0], Yhat[n1, n2, na, 1], Yhat[n1, n2, na, 2], Yhat[n1, n2, na, 3]),
                   Box(anchors[n1, n2, na, 0], anchors[n1, n2, na, 1], anchors[n1, n2, na, 2], anchors[n1, n2, na, 3]));
  }

  /** Row i of the result is the i-th largest distinct score's rectangle: the keys are
      exactly the scores that occur, in strictly decreasing order, and the scores larger
      than the i-th key are exactly the i keys before it. */
  lemma RankedIsIthLargest(y: Tensor4, an: Tensor4)
    ensures Descending(Ranked(y, an))
    ensures forall s :: s in Ranked(y, an) <==> exists p :: InGrid(p, y.d0, y.d1, y.d2) && CandidateAt(y, an, p).score == s
    ensures forall i, s :: 0 <= i < |Ranked(y, an)| && s in Ranked(y, an) ==> (s > Ranked(y, an)[i] <==> s in Ranked(y, an)[..i])
  {
    var cs := Candidates(y, an);
    var d := DictOf(cs);
    var r := SortDesc(d.keys);
    assert r == Ranked(y, an);
    DictOfValid(cs);
    SortedKeys(d);
    DictKeysAreScores(cs);
    CandidatesEnumerateGrid(y, an);
    forall s
      ensures s in r <==> exists p :: InGrid(p, y.d0, y.d1, y.d2) && CandidateAt(y, an, p).score == s
    {
      if s in r {
        assert s in d.values;
        var c :| c in cs && c.score == s;
        assert InGrid(c.pos, y.d0, y.d1, y.d2) && CandidateAt(y, an, c.pos).score == s;
      }
      if exists p :: InGrid(p, y.d0, y.d1, y.d2) && CandidateAt(y, an, p).score == s {
        var p :| InGrid(p, y.d0, y.d1, y.d2) && CandidateAt(y, an, p).score == s;
        assert CandidateAt(y, an, p) in cs;
      }
    }
    DescendingRank(r);
  }

  /** Among positions with equal scores the last one in loop order wins: if p holds the
      i-th key and no later position has that score, row i is decoded from p. */
  lemma DetectionIsLastWithScore(e: ExpLog, y: Tensor4, an: Tensor4, i: int, p: Pos)
    requires 0 <= i < |Ranked(y, an)|
    requires InGrid(p, y.d0, y.d1, y.d2) && CandidateAt(y, an, p).score == Ranked(y, an)[i]
    requires forall q :: InGrid(q, y.d0, y.d1, y.d2) && Before(p, q) ==> CandidateAt(y, an, q).score != Ranked(y, an)[i]
    ensures Detection(e, y, an, i) == Rect(e, CandidateAt(y, an, p).reg, CandidateAt(y, an, p).anchor)
  {
    var cs := Candidates(y, an);
    CandidatesEnumerateGrid(y, an);
    var c := CandidateAt(y, an, p);
    assert c in cs;
    var k :| 0 <= k < |cs| && cs[k] == c;
    forall j | k < j < |cs|
      ensures cs[j].score != cs[k].score
    {
      assert cs[j] in cs;
      assert Before(cs[k].pos, cs[j].pos);
    }
    DictLastWins(cs, k);
  }
}
