# A verified model of a two-layer region-proposal network

This project models `submitted.py`, a hand-written Faster R-CNN style face detector
head in numpy, in Dafny. It covers:

- the box encoding (`rect_regression`, `rect`);
- the clamped primitives (`sigmoid`, `safe_log`);
- the padded convolution (`conv2`, `conv_layer`);
- the forward pass (`forwardprop`);
- the selection of the best rectangles (`detect`);
- the two training losses (`loss`);
- the backward pass (`backprop`, `weight_gradient`);
- the gradient step (`weight_update`).

Tensor entries are exact reals. The exponential and the logarithm are a parameter
`ExpLog` that obeys the laws in `Numeric.Lawful`:

- `exp` is positive;
- `exp(y) < 1` exactly for `y < 0`, and `exp(0) = 1`;
- `log` and `exp` invert each other on the positive reals.

Functions whose loops update arrays, running totals or a dictionary become methods over
Dafny arrays, with one method per loop level. Each method is proved against a
specification function. These functions work on snapshots of the arrays (`Tensors.Snap2`
to `Snap5`), whose accessor `At` gives 0 off the tensor, which is also the value of zero
padding. Whole-array numpy expressions (`np.maximum`, `Yhat - Y`, `W - lr * dW`) become
array initialisers.

Files, one module each:

| file | module | models |
|---|---|---|
| `numeric.dfy` | `Numeric` | `sigmoid`, `safe_log_min`, `safe_log` |
| `sums.dfy` | `Sums` | finite sums in loop order and their algebra |
| `tensors.dfy` | `Tensors` | tensors as values, array snapshots |
| `boxes.dfy` | `Boxes` | `rect_regression`, `rect` |
| `conv.dfy` | `Conv` | `conv2`, `conv_layer` |
| `forward.dfy` | `Forward` | `forwardprop` |
| `detect.dfy` | `Detect` | `detect` |
| `loss.dfy` | `Loss` | `loss` |
| `gradient.dfy` | `Gradient` | `backprop`, `weight_gradient`, `weight_update` |

## Model

| member | source | states |
|---|---|---|
| Numeric.SafeLogMin | submitted.py:32 | `safe_log_min = exp(-100)` lies strictly between 0 and 1 |
| Numeric.Sigmoid | submitted.py:28-30 | The activation is in [0, 1). It is exactly 0 iff the excitation is at or below -100. Above that it is the reciprocal of 1 + exp(-xi). |
| Numeric.SafeLog | submitted.py:41-43 | Above `safe_log_min` the result is the exponent whose exp gives back x. At or below it the result is exactly 0. It is never positive for x <= 1. |
| Numeric.SafeLogOfOne | submitted.py:41-43 | `safe_log(1) == 0` |
| Boxes.RectRegression | submitted.py:6-9 | The position part of the target is the rectangle's offset from the anchor, measured in anchor widths and heights. |
| Boxes.Rect | submitted.py:11-12 | The decoded rectangle lies at the target's offset from the anchor, in anchor widths and heights. |
| Boxes.RegressionScalesAnchor | submitted.py:8-9 | For positive sizes, exp of the size part of the target scales the anchor's size to the rectangle's. |
| Boxes.RectHasPositiveSize | submitted.py:12 | Decoding against an anchor of positive size gives a rectangle of positive width and height. |
| Boxes.DecodeEncode | submitted.py:6-12 | `rect(rect_regression(r, a), a) == r` for an anchor and a rectangle of positive size |
| Boxes.EncodeDecode | submitted.py:6-12 | `rect_regression(rect(t, a), a) == t` for an anchor of non-zero size |
| Conv.Pad | submitted.py:65-66 | The buffer is 2p larger on each axis. It holds H in rows and columns [p, N + p) and 0 elsewhere. |
| Conv.PaddedIsShifted | submitted.py:65-66 | Read as a tensor, the padded buffer is H shifted by p on both axes, with 0 wherever the shifted index leaves H. |
| Conv.Rotate | submitted.py:67 | `W[::-1, ::-1]` has W's shape, and entry (i, j) is W[M1-1-i, M2-1-j]. |
| Conv.Window | submitted.py:71 | `np.inner` of the flattened rotated kernel with the window at (n1, n2) is the sum over the kernel of rotated entry times buffer entry. The window must lie inside the padded buffer, so every read is in bounds. |
| Conv.Windows | submitted.py:69-71 | The double loop fills a rows x cols output with the window sums, and only calls `Window` on windows inside the buffer. |
| Conv.WindowIsConv2 | submitted.py:67-71 | The inner product of the rotated kernel with the window at (n1, n2) of the padded buffer is the sum over the kernel of W[M1-1-i, M2-1-j] * H[n1+i-p, n2+j-p], with H zero off its grid. |
| Conv.Conv2 | submitted.py:63-72 | The output's shape is the loops' range, N1-M1+1+2p rows and N2-M2+1+2p columns (the corrected allocation; see Findings). Each entry is the window sum of the rotated kernel, so every window read stays inside the padded buffer. |
| Conv.PlaneIsConv2 | submitted.py:94-96 | `conv2(H[:, :, c], W[:, :, c, d], p)` at (n1, n2) is plane c of the layer's terms for output channel d. |
| Conv.AccumulateChannel | submitted.py:96 | `Xi[:, :, d] += T` adds T to channel d and leaves the other channels unchanged. |
| Conv.AddChannel | submitted.py:96 | One step of the channel loop adds the `conv2` of channel c with kernel slice (c, d) to output channel d. Nothing else changes. |
| Conv.ConvLayer | submitted.py:91-97 | The output has shape (N1-M1+1+2p, N2-M2+1+2p, ND). Channel d is the sum over c of `conv2(H[:, :, c], W[:, :, c, d], p)`. It is built on the corrected `conv2`; as written it fails whenever N1-M1 != N2-M2 (see Findings). |
| Conv.ExampleShape | submitted.py:91-93 | A (4, 4, 2) input, a (3, 3, 2, 3) kernel and padding 1 give a (4, 4, 3) output. |
| Conv.Conv2LinearInInput | submitted.py:67-71 | `conv2(a*h + b*h') == a*conv2(h) + b*conv2(h')` entry by entry |
| Conv.Conv2LinearInKernel | submitted.py:67-71 | `conv2` is linear in its kernel. |
| Conv.LayerTermLinearInInput | submitted.py:94-96 | Each term of a layer entry is linear in the input. |
| Conv.LayerTermLinearInKernel | submitted.py:94-96 | Each term of a layer entry is linear in the kernel. |
| Conv.ConvLayerLinearInInput | submitted.py:93-96 | `conv_layer` is linear in H. |
| Conv.ConvLayerLinearInKernel | submitted.py:93-96 | `conv_layer` is linear in W. |
| Conv.Conv2AllocatedShapeAsWritten | submitted.py:68 | As written, the allocation is square whatever N2 and M2 are, with the loops' row count on both axes. |
| Conv.AllocationFitsLoopsIff | submitted.py:68-70 | The allocation as written has exactly the loops' shape iff N1 - M1 == N2 - M2. |
| Conv.Conv2ColumnOverrunAsWritten | submitted.py:68-71 | For a 4 x 5 image, a 3 x 3 kernel and padding 1, the column loop reaches index 4 of a 4-column allocation. |
| Forward.Relu | submitted.py:127 | `np.maximum(0, x)` is non-negative and at least x, and it is either x or 0. |
| Forward.OutputAt | submitted.py:143-146 | Channels 0-3 pass the excitation through. Channel 4 is its sigmoid: in [0, 1), and 0 iff the excitation is <= -100. |
| Forward.ProjectEntry | submitted.py:140-141 | The d loop accumulates `Xi_2[n1,n2,a,k] = sum_d H[n1,n2,d] * W2[0,0,d,a,k]`. |
| Forward.ProjectAnchor | submitted.py:139-141 | The k loop sets every channel of anchor a at (n1, n2) to its excitation. Nothing else changes. |
| Forward.ProjectCell | submitted.py:138-141 | The a loop sets every anchor of cell (n1, n2). Nothing else changes. |
| Forward.Project | submitted.py:130-141 | Xi_2 has shape (N1, N2, A, K), and every entry is the sum over hidden channels. |
| Forward.Hidden | submitted.py:126-127 | `H = max(0, conv_layer(X, W1, 1))` entry by entry, with the layer's shape. It uses the corrected `conv2`; as written a non-square image with a square kernel fails here (see Findings). |
| Forward.OutputHead | submitted.py:131-146 | Yhat has Xi_2's shape. Every entry is the output channel rule applied to its excitation. |
| Forward.ForwardProp | submitted.py:121-148 | H is the ReLU of the first layer, so H >= 0. Yhat[..., 0:4] is Xi_2, and Yhat[..., 4] is the sigmoid of Xi_2, which is 0 at or below -100. Both shapes hold. It uses the corrected `conv2` shape, so non-square images are covered where the source fails. |
| Detect.CandidatesEnumerateGrid | submitted.py:178-186 | The dictionary loop visits every grid position exactly once, in (n1, n2, na) order. It reads the score, the target and the anchor at that position. |
| Detect.CellEnumerates | submitted.py:180-186 | The na loop visits the anchors of one cell in order. |
| Detect.RowEnumerates | submitted.py:179-186 | The n2 loop visits the cells of one row in order. |
| Detect.GridEnumerates | submitted.py:178-186 | The n1 loop visits only grid positions, in loop order. |
| Detect.GridCovers | submitted.py:178-186 | The n1 loop visits every grid position. |
| Detect.Put | submitted.py:187 | `d[k] = v` maps k to v. An existing key keeps its place, a new key goes last, and the keys stay distinct. |
| Detect.DictOfValid | submitted.py:176-187 | The filled dictionary has distinct keys, each with a value. |
| Detect.DictKeysAreScores | submitted.py:176-187 | Its keys are exactly the scores that occur. |
| Detect.DictLastWins | submitted.py:187 | The value under a score comes from the last candidate with that score. |
| Detect.InsertDesc | submitted.py:189 | One sorting step inserts x and keeps the same multiset. |
| Detect.InsertDescKeepsOrder | submitted.py:189 | Inserting a new key into a strictly decreasing sequence keeps it strictly decreasing. |
| Detect.SortDesc | submitted.py:189 | `sorted(..., reverse=True)` is a permutation, and it is strictly decreasing when the keys are distinct. |
| Detect.SortedKeys | submitted.py:189 | A dictionary's sorted keys are exactly its keys, strictly decreasing. |
| Detect.DescendingRank | submitted.py:189 | In a strictly decreasing sequence, the elements larger than the i-th are exactly the i before it. |
| Detect.Selected | submitted.py:189-194 | Rows past the number of kept keys are zero. |
| Detect.Detection | submitted.py:164-194 | Row i is zero unless there are more than i distinct scores. |
| Detect.Collect | submitted.py:178-187 | The loops leave `pair_dict` equal to the dictionary of all candidates in loop order. |
| Detect.CollectRow | submitted.py:179-187 | The loops over n2 and na add row n1's candidates in order. |
| Detect.CollectCell | submitted.py:180-187 | The na loop adds cell (n1, n2)'s candidates in order. |
| Detect.VisitAt | submitted.py:182-186 | The loop body reads `yhat[4]`, `yhat[0:4]` and `anc` at (n1, n2, na). |
| Detect.WriteRow | submitted.py:193 | `best_rects[index] = r` sets that row and leaves the others. |
| Detect.Detect | submitted.py:163-194 | The result has `number_to_return` rows of 4. Row i is the rectangle decoded from the pair stored under the i-th largest distinct score, and zero beyond the number of distinct scores. |
| Detect.RankedIsIthLargest | submitted.py:178-189 | The kept keys are exactly the scores that occur, strictly decreasing. The scores above the i-th key are exactly the i keys before it. |
| Detect.DetectionIsLastWithScore | submitted.py:185-193 | If p holds the i-th largest score and no later position in loop order has it, row i is `rect(reg(p), anchor(p))`. |
| Loss.SquaredError | submitted.py:249 | `norm(Y[0:4] - Yhat[0:4])**2` is non-negative, and 0 when the targets agree. |
| Loss.Loss | submitted.py:237-263 | `L_bce` is minus the sum of `Y4*safe_log(Yhat4) + (1-Y4)*safe_log(1-Yhat4)` over the grid, divided by N1*N2*NA (at least 1 on the required non-empty grid). `L_mse` is 0.5 * sum(Y4 * squared error) / sum(Y4), and 0 without positive labels. On each grid axis Y and Yhat have equal lengths, or Y's is 1 (`AxisFits`): the shapes for which the difference at line 243 broadcasts and the loops read only existing entries. |
| Loss.LossSums | submitted.py:246-251 | After the loops, `num_mse`, `den_mse` and `num_bce` are the three sums over the grid. |
| Loss.LossRow | submitted.py:247-251 | The n2 and na loops add row n1's terms to the running totals. |
| Loss.LossCell | submitted.py:248-251 | The na loop adds cell (n1, n2)'s terms to the running totals. |
| Loss.Terms | submitted.py:249-251 | The loop body's three terms at (n1, n2, na) |
| Loss.BceNonnegative | submitted.py:251-256 | With labels and scores in [0, 1], `L_bce >= 0`. |
| Loss.MseNonnegative | submitted.py:249-255 | With non-negative labels, `L_mse >= 0`. |
| Loss.MseIgnoresUnlabelled | submitted.py:249-255 | Predictions that differ only at unlabelled positions have the same `L_mse`. |
| Loss.PerfectPredictionCostsNothing | submitted.py:249-256 | With binary labels, predicting Y exactly gives `L_bce == 0` and `L_mse == 0`. |
| Loss.MseAgreesWhenDefined | submitted.py:255 | Wherever the source's division is defined, it gives the documented `L_mse`. |
| Loss.MseWithoutPositives | submitted.py:250-255 | Without positive labels the source's `L_mse` has no value, while the documented one is 0. |
| Gradient.Backprop | submitted.py:277-294 | `GradXi2 == Yhat - Y` entry by entry. `GradXi1[n1,n2,d]` is 0 where `H[n1,n2,d] <= 0`, and otherwise the sum over (a, k) of `GradXi2[n1,n2,a,k] * W2[0,0,d,a,k]`. Both shapes hold. |
| Gradient.BackRow | submitted.py:287-290 | The n2 loop fills row n1 of GradXi1. Nothing else changes. |
| Gradient.BackCell | submitted.py:288-290 | The gated nd loop fills cell (n1, n2). Inactive units keep their 0. |
| Gradient.BackSum | submitted.py:290 | `np.sum(GradXi2[n1,n2,:,:] * W2[0,0,d,:,:])` |
| Gradient.BackAnchorSum | submitted.py:290 | Anchor a's share of that sum, added to a running total |
| Gradient.GradHiddenIsTranspose | submitted.py:286-290 | For H >= 0 (as ReLU makes it), pairing GradXi2 with the excitations `H W2` at a cell equals pairing H with GradXi1. GradXi1 is therefore the transpose of the second layer applied to GradXi2. |
| Gradient.CellPairingExpands | submitted.py:290 | The cell pairing spreads over the hidden channels. |
| Gradient.CellSlice | submitted.py:289-290 | Hidden channel d's share of the cell pairing is `H * GradXi1` there. |
| Gradient.NoErrorNoHiddenGradient | submitted.py:284-290 | Where Yhat equals Y at a cell, GradXi1 is 0 there. |
| Gradient.WeightGradient | submitted.py:310-339 | dW1 has shape (M1, M2, NC, ND). `dW1[m1,m2,c,d]` is the source's guarded sum of `GradXi1[n1-(i-1), n2-(j-1), d] * X[n1,n2,c]` over X's grid, taken at the rotated kernel index (i, j) = (M1-1-m1, M2-1-m2) (the corrected orientation; see Findings). dW2 has shape (1, 1, ND, NA, NY), with `dW2[0,0,d,a,k] = sum GradXi2[n1,n2,a,k] * H[n1,n2,d]`. |
| Gradient.Dw1Slice | submitted.py:317-328 | The nc, m2 and m1 loops fill dW1's slice for nd. Nothing else changes. |
| Gradient.Dw1Channel | submitted.py:318-328 | The m2 and m1 loops fill the (nc, nd) slice. |
| Gradient.Dw1Column | submitted.py:319-328 | The m1 loop fills the (m2, nc, nd) column, entry m1 with the sum at the rotated index. |
| Gradient.Dw1Entry | submitted.py:321-328 | The double loop accumulates `sum` for the kernel index it is given. |
| Gradient.Dw1Row | submitted.py:323-326 | The guarded n2 loop adds row n1's terms to `sum`. |
| Gradient.Dw1GuardIsPadding | submitted.py:325-326 | When GradXi1 has X's grid, the in-range guard is exactly zero padding of GradXi1. |
| Gradient.Dw1IsTranspose | submitted.py:317-328 | When GradXi1 has X's grid, pairing GradXi1 with channel d of `conv_layer(X, W1, 1)` over that grid equals pairing W1[:, :, :, d] with the corrected dW1[:, :, :, d]. So the corrected `dW1[m1,m2,c,d]` is the coefficient of `W1[m1,m2,c,d]` in that pairing. |
| Gradient.Dw1ChannelIsTranspose | submitted.py:317-328 | Input channel c's share of that pairing is W1[:, :, c, d] paired with the corrected dW1[:, :, c, d]. |
| Gradient.Dw1EntryIsTranspose | submitted.py:325-326 | The layer terms of rotated kernel index (i, j), summed over the grid, are `W1[M1-1-i, M2-1-j, c, d]` times the source's sum at (i, j). |
| Gradient.Dw1ShiftedSum | submitted.py:322-326 | The source's guarded sum at (i, j) is the sum over the grid of `GradXi1[n1, n2, d] * X[n1+i-1, n2+j-1, c]`, with X zero off its grid. |
| Gradient.Dw1PaddedSupport | submitted.py:325-326 | A padded term is 0 unless both X's index and GradXi1's shifted index lie on the grid. |
| Gradient.Dw1OrientationAsWritten | submitted.py:325-326 | With X a 1 at (0, 0) and GradXi1 a 1 at (1, 1) on a 3 x 3 grid, `W1[2,2]` moves `conv_layer(X, W1, 1)` at (1, 1) and `W1[0,0]` does not. Yet the source's sum is 0 at (2, 2) and 1 at (0, 0). The corrected dW1 is 1 at (2, 2). |
| Gradient.Dw2Slice | submitted.py:330-337 | The na and ny loops fill dW2's slice for nd. |
| Gradient.Dw2Anchor | submitted.py:331-337 | The ny loop fills the (nd, na) entries. |
| Gradient.Dw2Entry | submitted.py:333-337 | The double loop accumulates `sum1` for one dW2 entry. |
| Gradient.Dw2Row | submitted.py:335-336 | The n2 loop adds row n1's terms to `sum1`. |
| Gradient.Dw2IsTranspose | submitted.py:330-337 | Over the grid, pairing GradXi2 with the excitations of channel k of anchor a equals pairing W2 with dW2. So `dW2[0,0,d,a,k]` is the coefficient of `W2[0,0,d,a,k]` in that pairing. |
| Gradient.GridPairingExpands | submitted.py:336 | The grid pairing spreads over the hidden channels. |
| Gradient.GridSlice | submitted.py:336 | Hidden channel d's share of the grid pairing is `W2 * dW2` there. |
| Gradient.NoErrorNoWeightGradient | submitted.py:317-337 | Zero layer gradients give zero weight gradients. |
| Gradient.Descend | submitted.py:354-355 | A weight after a step stays put iff the rate or its gradient is 0. For a positive rate it moves against the sign of its gradient. |
| Gradient.WeightUpdate | submitted.py:354-357 | `new_W == W - lr * dW` entry by entry, with W's shape for both layers. So `lr = 0` returns the weights unchanged. |

## Left out

- The imports of `os`, `h5py`, `glob`, `re` and `argparse`: I/O and command-line plumbing that the model does not use.
- Floating point:
  - rounding, overflow of `exp`, NaN and infinity are not modelled;
  - the clamps in `sigmoid` and `safe_log` are kept exactly;
  - `exp` and `log` are a parameter with the laws of `Numeric.Lawful`, not computed functions.
- Whole arrays, not entries:
  - `sigmoid` and `safe_log` are modelled entry by entry, at the entries where the callers apply them;
  - their argument-array form (`np.zeros(X.shape)` plus a mask) is not a separate member.
- Any claim that `backprop` or `weight_gradient` compute the derivative of `loss`:
  - this is calculus, and the code does not state it;
  - the model proves the formulas the loops compute, plus the exact algebraic transpose identities `Gradient.GradHiddenIsTranspose`, `Gradient.Dw2IsTranspose` and, for the corrected dW1, `Gradient.Dw1IsTranspose`.
- The unused locals `Yhat_list`, `Yhat_flat`, `anchors_flat`, `reg_list`, `last_element_list` in `detect`, and `mse`, `mse_norm` in `loss`: their values do not affect any output. Computing `mse` does constrain the shapes `loss` accepts, and `Loss.Loss` requires exactly those shapes.
- The commented-out `argsort` variant of `detect` and the debug prints.
- numpy broadcasting: `Yhat - Y`, the product inside `np.sum` and `W - lr*dW` are modelled for equal shapes, the only case the documented shapes allow. `loss` is the exception: `Loss.AxisFits` states the broadcast its unused difference needs.
- Index errors: where the source would raise `IndexError`, the model states the index bound as a precondition. Examples:
  - a first-layer kernel larger than 3 x 3 makes H smaller than X's grid, which `forwardprop` then indexes; `Forward.ForwardProp` requires `M1, M2 <= 3`;
  - fewer than 5 output channels;
  - H, GradXi1 or GradXi2 smaller than the grid they are read on.
- Loss.Loss: requires a non-empty grid. On an empty grid the totals stay Python integers, and the source raises `ZeroDivisionError` at `num_mse/den_mse`.
- Loss.SquaredError: states that agreeing targets give 0, but not the converse. The converse holds over the reals but is not proved.
- The order in which `np.sum` and `np.inner` add terms: sums are exact, so order does not matter.
- Float dictionary keys:
  - `detect` keys its dictionary by score, and equal scores are equal reals;
  - a NaN score, which never compares equal, is not modelled.
- Copies, not storage: `Detect.Detect` reads the dictionary's values and the anchors as values. Aliasing between `Yhat` and `anchors` is harmless, since neither is written.
- Running totals: a loop's running totals are threaded through the helper method of the inner loop as parameters and results, instead of being one local variable.

## Findings

| source | as written | input that shows it | evidently intended | confidence | as-written member | corrected member |
|---|---|---|---|---|---|---|
| submitted.py:68-71 | `conv2` allocates `Xi` with N1-M1+1+2p rows and as many columns. The column loop runs to N2-M2+1+2p. | H of shape 4 x 5, W 3 x 3, padding 1: the loop writes column 4 of a 4-column array (`IndexError`). With N2 < N1 the extra columns hold uninitialised `np.empty` values, and `conv_layer`'s `Xi[:,:,d] += conv2(...)` then fails on the shape mismatch. So `forwardprop` fails on every non-square image with a square kernel. | N1-M1+1+2p rows and N2-M2+1+2p columns, as the docstring says | high; not executed | Conv.Conv2AllocatedShapeAsWritten, Conv.Conv2ColumnOverrunAsWritten, Conv.AllocationFitsLoopsIff | Conv.Conv2, Conv.ConvLayer, Forward.Hidden, Forward.ForwardProp |
| submitted.py:250-255 | `L_mse = 0.5*(num_mse/den_mse)` with `den_mse` the sum of the labels | a grid with every label `Y[..., 4] == 0`: `den_mse` is 0. The float division gives NaN, not 0. | `L_mse = 0` when there are no positive labels, as the docstring at lines 234-235 says | high; not executed | Loss.MseAsWritten, Loss.MseWithoutPositives | Loss.Mse, Loss.Loss |
| submitted.py:325-326 | `dW1[m1,m2,nc,nd]` sums `GradXi1[n1-(m1-1), n2-(m2-1), nd] * X[n1,n2,nc]`. But `conv2` applies the kernel rotated by 180 degrees, so this is the gradient of `W1[M1-1-m1, M2-1-m2]`. | 3 x 3 x 1 tensors with X a 1 at (0, 0), GradXi1 a 1 at (1, 1), and a 3 x 3 kernel with padding 1. `conv_layer(X, W1, 1)[1,1]` depends on `W1[2,2]` alone, yet the source gives dW1[0,0] = 1 and dW1[2,2] = 0. | dW1 is the gradient of the first layer's weights: the sum at the rotated index, whose pairing with W1 equals GradXi1's pairing with the layer | high; not executed | Gradient.Dw1OrientationAsWritten | Gradient.Dw1IsTranspose, Gradient.WeightGradient |
