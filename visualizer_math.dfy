/**
 * What the inference visualizer computes, as functions over nested
 * matrices (a matrix is a list of rows of reals, as `number[][]` is). The
 * visualizer re-runs the transformer on weights exported from the training
 * engine and records every intermediate activation for display; these
 * functions are the specification the imperative tracer is proved against.
 */
module VisualizerMath {
  import opened Numeric
  import Kernels

  type Matrix = seq<seq<real>>

  /** `rows` rows of `cols` entries each. */
  predicate IsMatrix(a: Matrix, rows: nat, cols: nat)
  {
    |a| == rows && forall i :: 0 <= i < rows ==> |a[i]| == cols
  }

  /** The value the causal mask and the top-k filter write, -1e9. */
  const MaskValue: real := -1000000000.0

  // ------------------------------------------------------------- matMul

  /** What matMul reads: `a[0].length` and `b[0].length` exist, the rows
      are uniform, and b has a row for every column of a. */
  predicate MulShapes(a: Matrix, b: Matrix)
  {
    && |a| > 0 && |b| > 0
    && IsMatrix(a, |a|, |a[0]|) && IsMatrix(b, |b|, |b[0]|)
    && |a[0]| <= |b|
  }

  /** The first n terms of row i of a times column j of b, summed left to
      right as the innermost loop does. */
  function Inner(a: Matrix, b: Matrix, i: nat, j: nat, n: nat): real
    requires MulShapes(a, b) && i < |a| && j < |b[0]| && n <= |a[0]|
    decreases n
  {
    if n == 0 then 0.0 else Inner(a, b, i, j, n - 1) + a[i][n - 1] * b[n - 1][j]
  }

  /** The product matMul returns: |a| rows of b[0].length entries. */
  function Product(a: Matrix, b: Matrix): (r: Matrix)
    requires MulShapes(a, b)
    ensures IsMatrix(r, |a|, |b[0]|)
    ensures forall i, j :: 0 <= i < |a| && 0 <= j < |b[0]| ==> r[i][j] == Inner(a, b, i, j, |a[0]|)
  {
    seq(|a|, i requires 0 <= i < |a| =>
      seq(|b[0]|, j requires 0 <= j < |b[0]| => Inner(a, b, i, j, |a[0]|)))
  }

  /** The first n entries of column j. */
  function Column(b: Matrix, j: nat, n: nat): (c: Vec)
    requires n <= |b| && forall k :: 0 <= k < n ==> j < |b[k]|
    ensures |c| == n && forall k :: 0 <= k < n ==> c[k] == b[k][j]
  {
    seq(n, k requires 0 <= k < n => b[k][j])
  }

  /** Every entry of the product is the dot product of a row of a with a
      column of b. */
  lemma {:induction false} InnerIsDot(a: Matrix, b: Matrix, i: nat, j: nat, n: nat)
    requires MulShapes(a, b) && i < |a| && j < |b[0]| && n <= |a[0]|
    ensures Inner(a, b, i, j, n) == Dot(a[i][..n], Column(b, j, n))
    decreases n
  {
    if n > 0 {
      InnerIsDot(a, b, i, j, n - 1);
      assert a[i][..n][..n - 1] == a[i][..n - 1];
      assert Column(b, j, n)[..n - 1] == Column(b, j, n - 1);
    }
  }

  // ---------------------------------------------------------- transpose

  /** `transpose(m)`: one row per column of m[0]. */
  function Transpose(w: Matrix): (r: Matrix)
    requires |w| > 0 && IsMatrix(w, |w|, |w[0]|)
    ensures IsMatrix(r, |w[0]|, |w|)
    ensures forall i, j :: 0 <= i < |w[0]| && 0 <= j < |w| ==> r[i][j] == w[j][i]
  {
    seq(|w[0]|, i requires 0 <= i < |w[0]| => seq(|w|, j requires 0 <= j < |w| => w[j][i]))
  }

  /** Transposing twice gives the matrix back. */
  lemma TransposeTwice(w: Matrix)
    requires |w| > 0 && |w[0]| > 0 && IsMatrix(w, |w|, |w[0]|)
    ensures Transpose(Transpose(w)) == w
  {
    var t := Transpose(Transpose(w));
    forall i | 0 <= i < |w| ensures t[i] == w[i] {
      assert |t[i]| == |w[i]|;
    }
  }

  // ------------------------------------------------------------- linear

  /** What `linear(x, w)` needs: w has rows of a positive length (matMul
      reads the first row of w's transpose), and x is no wider. */
  predicate LinearShapes(x: Matrix, w: Matrix)
  {
    && |x| > 0 && |w| > 0
    && IsMatrix(x, |x|, |x[0]|) && IsMatrix(w, |w|, |w[0]|)
    && 0 < |w[0]| && |x[0]| <= |w[0]|
  }

  /** `linear(x, w)`: x times the transpose of w, one output per row of w. */
  function LinearOut(x: Matrix, w: Matrix): (r: Matrix)
    requires LinearShapes(x, w)
    ensures IsMatrix(r, |x|, |w|)
  {
    Product(x, Transpose(w))
  }

  /** Entry (i, j) of `linear(x, w)` is the dot product of row i of x with
      row j of w: the PyTorch convention of [out, in] weights. */
  lemma LinearIsDot(x: Matrix, w: Matrix, i: nat, j: nat)
    requires LinearShapes(x, w) && |x[0]| == |w[0]| && i < |x| && j < |w|
    ensures LinearOut(x, w)[i][j] == Dot(x[i], w[j])
  {
    var t := Transpose(w);
    InnerIsDot(x, t, i, j, |x[0]|);
    assert x[i][..|x[0]|] == x[i];
    assert Column(t, j, |x[0]|) == w[j];
  }

  // -------------------------------------------------------- elementwise

  /** `add(a, b)`: entrywise sum over the shape of a. */
  function AddM(a: Matrix, b: Matrix): (r: Matrix)
    requires |a| <= |b| && forall i :: 0 <= i < |a| ==> |a[i]| <= |b[i]|
    ensures |r| == |a| && forall i :: 0 <= i < |a| ==> |r[i]| == |a[i]|
    ensures forall i, j :: 0 <= i < |a| && 0 <= j < |a[i]| ==> r[i][j] == a[i][j] + b[i][j]
  {
    seq(|a|, i requires 0 <= i < |a| =>
      seq(|a[i]|, j requires 0 <= j < |a[i]| => a[i][j] + b[i][j]))
  }

  /** Every entry of every row times c (the attention scale). */
  function ScaleM(x: Matrix, c: real): (r: Matrix)
    ensures |r| == |x| && forall i :: 0 <= i < |x| ==> r[i] == VecScale(x[i], c)
  {
    seq(|x|, i requires 0 <= i < |x| => VecScale(x[i], c))
  }

  /** `Math.max(0, val)` over every row. */
  function ReluM(x: Matrix): (r: Matrix)
    ensures |r| == |x| && forall i :: 0 <= i < |x| ==> r[i] == Kernels.Relu(x[i])
  {
    seq(|x|, i requires 0 <= i < |x| => Kernels.Relu(x[i]))
  }

  // ------------------------------------------------------------ rmsNorm

  /** One row of `rmsNorm(x, weight)`: each entry divided by the row's rms
      (with eps 1e-5) and multiplied by its gain. An empty row stays empty. */
  function RmsRow(m: MathLib, row: Vec, weight: Vec): (r: Vec)
    requires Lawful(m) && |row| <= |weight|
    ensures |r| == |row|
    ensures |row| > 0 ==> forall i :: 0 <= i < |row| ==>
      r[i] == Kernels.RmsNorm(m, row, Kernels.RmsEps)[i] * weight[i]
  {
    if |row| == 0 then []
    else
      var rms := Kernels.Rms(m, row, Kernels.RmsEps);
      seq(|row|, i requires 0 <= i < |row| => (row[i] / rms) * weight[i])
  }

  /** `rmsNorm(x, weight)` row by row. */
  function RmsNormM(m: MathLib, x: Matrix, weight: Vec): (r: Matrix)
    requires Lawful(m) && forall i :: 0 <= i < |x| ==> |x[i]| <= |weight|
    ensures |r| == |x| && forall i :: 0 <= i < |x| ==> r[i] == RmsRow(m, x[i], weight)
  {
    seq(|x|, i requires 0 <= i < |x| => RmsRow(m, x[i], weight))
  }

  /** With unit gains, which is what the weight bridge exports (the
      training engine's RMSNorm has no learned weights), the visualizer's
      rmsNorm is the training engine's rmsNorm on every non-empty row. */
  lemma RmsNormUnitGains(m: MathLib, x: Matrix, weight: Vec, i: nat)
    requires Lawful(m) && forall k :: 0 <= k < |x| ==> |x[k]| <= |weight|
    requires forall k :: 0 <= k < |weight| ==> weight[k] == 1.0
    requires i < |x| && |x[i]| > 0
    ensures RmsNormM(m, x, weight)[i] == Kernels.RmsNorm(m, x[i], Kernels.RmsEps)
  {
  }

  // ------------------------------------------------------------ softmax

  /** `softmax2D(x)`: softmax of every row. */
  function SoftmaxM(m: MathLib, x: Matrix): (r: Matrix)
    requires Lawful(m)
    ensures |r| == |x| && forall i :: 0 <= i < |x| ==> r[i] == Kernels.Softmax(m, x[i])
  {
    seq(|x|, i requires 0 <= i < |x| => Kernels.Softmax(m, x[i]))
  }

  /** Every non-empty row of softmax2D is a probability distribution. */
  lemma SoftmaxRows(m: MathLib, x: Matrix, i: nat)
    requires Lawful(m) && i < |x| && |x[i]| > 0
    ensures Sum(SoftmaxM(m, x)[i]) == 1.0
    ensures forall j :: 0 <= j < |x[i]| ==> 0.0 < SoftmaxM(m, x)[i][j] <= 1.0
  {
    Kernels.SoftmaxSumsToOne(m, x[i]);
    var row := SoftmaxM(m, x)[i];
    forall j | 0 <= j < |x[i]| ensures row[j] <= 1.0 {
      if |x[i]| >= 2 {
        Kernels.SoftmaxBelowOne(m, x[i], j);
      } else {
        assert row[..0] == [];
      }
    }
  }

  // -------------------------------------------------------- causal mask

  /** The scores after the causal mask: position r may not attend to any
      later position c, whose score becomes -1e9. */
  function Masked(s: Matrix): (r: Matrix)
    requires IsMatrix(s, |s|, |s|)
    ensures IsMatrix(r, |s|, |s|)
  {
    seq(|s|, i requires 0 <= i < |s| =>
      seq(|s|, j requires 0 <= j < |s| => if j > i then MaskValue else s[i][j]))
  }

  /** Row r of the masked scores keeps the scores of positions 0..r and
      holds -1e9 for every later position. */
  lemma MaskedRow(s: Matrix, r: nat)
    requires IsMatrix(s, |s|, |s|) && r < |s|
    ensures Masked(s)[r][..r + 1] == s[r][..r + 1]
    ensures forall c :: r < c < |s| ==> Masked(s)[r][c] == MaskValue
  {
  }

  // ---------------------------------------------------------- attention

  /** One head's weights: query, key and value, each [headSize][nEmbd]. */
  datatype HeadWeights = HeadWeights(query: Matrix, key: Matrix, value: Matrix)

  datatype BlockWeights = BlockWeights(
    ln1: Vec, ln2: Vec, proj: Matrix, heads: seq<HeadWeights>, net0: Matrix, net2: Matrix)

  datatype ModelWeights = ModelWeights(
    tokenEmbedding: Matrix, positionEmbedding: Matrix, lnF: Vec, lmHead: Matrix,
    blocks: seq<BlockWeights>)

  datatype ModelConfig = ModelConfig(
    nEmbd: nat, nHead: nat, nLayer: nat, vocabSize: nat, blockSize: nat, chars: seq<string>)

  predicate HeadShaped(hw: HeadWeights, hs: nat, e: nat)
  {
    IsMatrix(hw.query, hs, e) && IsMatrix(hw.key, hs, e) && IsMatrix(hw.value, hs, e)
  }

  /** The head size of a block: the row count of its first query matrix. */
  function HeadSize(b: BlockWeights): nat
  {
    if |b.heads| == 0 then 0 else |b.heads[0].query|
  }

  /** The shapes a block's weights must have for the tracer to read them:
      nHead heads of [hs][e] projections (hs > 0), a [e][nHead * hs] output
      projection, a [f][e] up-projection and a [e][f] down-projection
      (f > 0), and gains covering e entries. */
  predicate BlockShaped(b: BlockWeights, nHead: nat, e: nat)
  {
    && 0 < nHead <= |b.heads| && 0 < HeadSize(b)
    && (forall h :: 0 <= h < nHead ==> HeadShaped(b.heads[h], HeadSize(b), e))
    && |b.ln1| >= e && |b.ln2| >= e
    && IsMatrix(b.proj, e, nHead * HeadSize(b))
    && |b.net0| > 0 && IsMatrix(b.net0, |b.net0|, e) && IsMatrix(b.net2, e, |b.net0|)
  }

  /** What one head records: its projections, its attention weights (the
      `scores` of the trace, taken after the softmax) and its output. */
  datatype HeadOut = HeadOut(q: Matrix, k: Matrix, v: Matrix, attn: Matrix, out: Matrix)

  /** One attention head over the normalised sequence x: scaled dot-product
      attention under the causal mask. */
  function Head(m: MathLib, x: Matrix, hw: HeadWeights, hs: nat, e: nat, scale: real): (h: HeadOut)
    requires Lawful(m) && |x| > 0 && e > 0 && hs > 0 && IsMatrix(x, |x|, e) && HeadShaped(hw, hs, e)
    ensures IsMatrix(h.q, |x|, hs) && IsMatrix(h.k, |x|, hs) && IsMatrix(h.v, |x|, hs)
    ensures IsMatrix(h.attn, |x|, |x|) && IsMatrix(h.out, |x|, hs)
  {
    var q := LinearOut(x, hw.query);
    var k := LinearOut(x, hw.key);
    var v := LinearOut(x, hw.value);
    var attn := SoftmaxM(m, Masked(ScaleM(Product(q, Transpose(k)), scale)));
    HeadOut(q, k, v, attn, Product(attn, v))
  }

  /** Every row of a head's attention weights is a distribution over the
      positions. The causal mask under the softmax, -1e9 for every later
      position, is stated by MaskedRow. */
  lemma HeadAttention(m: MathLib, x: Matrix, hw: HeadWeights, hs: nat, e: nat, scale: real, r: nat)
    requires Lawful(m) && |x| > 0 && e > 0 && hs > 0 && IsMatrix(x, |x|, e) && HeadShaped(hw, hs, e)
    requires r < |x|
    ensures Sum(Head(m, x, hw, hs, e, scale).attn[r]) == 1.0
  {
    var q := LinearOut(x, hw.query);
    var k := LinearOut(x, hw.key);
    SoftmaxRows(m, Masked(ScaleM(Product(q, Transpose(k)), scale)), r);
  }

  /** The heads 0..n-1 of a block, in order. */
  function Heads(m: MathLib, x: Matrix, b: BlockWeights, e: nat, scale: real, n: nat): (hs: seq<HeadOut>)
    requires Lawful(m) && |x| > 0 && e > 0 && IsMatrix(x, |x|, e)
    requires n <= |b.heads| && 0 < HeadSize(b)
    requires forall h :: 0 <= h < n ==> HeadShaped(b.heads[h], HeadSize(b), e)
    ensures |hs| == n
    ensures forall h :: 0 <= h < n ==> hs[h] == Head(m, x, b.heads[h], HeadSize(b), e, scale)
  {
    seq(n, h requires 0 <= h < n => Head(m, x, b.heads[h], HeadSize(b), e, scale))
  }

  /** The heads up to k + 1 are the heads up to k and head k. */
  lemma HeadsNext(m: MathLib, x: Matrix, b: BlockWeights, e: nat, scale: real, k: nat)
    requires Lawful(m) && |x| > 0 && e > 0 && IsMatrix(x, |x|, e)
    requires k < |b.heads| && 0 < HeadSize(b)
    requires forall h :: 0 <= h <= k ==> HeadShaped(b.heads[h], HeadSize(b), e)
    ensures Heads(m, x, b, e, scale, k + 1)
         == Heads(m, x, b, e, scale, k) + [Head(m, x, b.heads[k], HeadSize(b), e, scale)]
  {
  }

  // ------------------------------------------------------------- concat

  /** Every head has a row r of hs entries. */
  predicate RowsAt(outs: seq<Matrix>, r: nat, hs: nat)
  {
    forall h :: 0 <= h < |outs| ==> r < |outs[h]| && |outs[h][r]| == hs
  }

  /** Row r of heads 0..k-1 joined: head 0's entries, then head 1's, ... */
  function JoinRow(outs: seq<Matrix>, r: nat, k: nat, hs: nat): (row: Vec)
    requires k <= |outs| && RowsAt(outs, r, hs)
    ensures |row| == k * hs
    decreases k
  {
    if k == 0 then [] else JoinRow(outs, r, k - 1, hs) + outs[k - 1][r]
  }

  /** The concatenated attention: one row per position, of all heads'
      outputs side by side. */
  function Concat(outs: seq<Matrix>, n: nat, hs: nat): (c: Matrix)
    requires forall h :: 0 <= h < |outs| ==> IsMatrix(outs[h], n, hs)
    ensures IsMatrix(c, n, |outs| * hs)
  {
    forall r | 0 <= r < n ensures RowsAt(outs, r, hs) {
      forall h | 0 <= h < |outs| ensures r < |outs[h]| && |outs[h][r]| == hs {
        assert IsMatrix(outs[h], n, hs);
      }
    }
    seq(n, r requires 0 <= r < n => JoinRow(outs, r, |outs|, hs))
  }

  lemma MulPositive(a: nat, b: nat)
    requires a > 0 && b > 0
    ensures a * b > 0
  {
  }

  lemma MulBelow(h: nat, k: nat, hs: nat, d: nat)
    requires h < k && d < hs
    ensures h * hs + d < k * hs
  {
    assert (h + 1) * hs <= k * hs by {
      assert k * hs == (h + 1) * hs + (k - h - 1) * hs;
    }
  }

  /** Entry d of head h sits at column h * hs + d of the joined row:
      [head0_dim0 .. head0_dim(hs-1), head1_dim0, ...]. */
  lemma {:induction false} JoinRowAt(outs: seq<Matrix>, r: nat, k: nat, hs: nat, h: nat, d: nat)
    requires k <= |outs| && RowsAt(outs, r, hs)
    requires h < k && d < hs
    ensures h * hs + d < k * hs && JoinRow(outs, r, k, hs)[h * hs + d] == outs[h][r][d]
    decreases k
  {
    MulBelow(h, k, hs, d);
    if h < k - 1 {
      JoinRowAt(outs, r, k - 1, hs, h, d);
    } else {
      assert (k - 1) * hs == |JoinRow(outs, r, k - 1, hs)|;
    }
  }

  /** The column layout of the concatenated attention. */
  lemma ConcatAt(outs: seq<Matrix>, n: nat, hs: nat, r: nat, h: nat, d: nat)
    requires forall g :: 0 <= g < |outs| ==> IsMatrix(outs[g], n, hs)
    requires r < n && h < |outs| && d < hs
    ensures h * hs + d < |outs| * hs && Concat(outs, n, hs)[r][h * hs + d] == outs[h][r][d]
  {
    assert IsMatrix(outs[h], n, hs);
    JoinRowAt(outs, r, |outs|, hs, h, d);
  }

  function Outs(hs: seq<HeadOut>): (r: seq<Matrix>)
    ensures |r| == |hs| && forall h :: 0 <= h < |hs| ==> r[h] == hs[h].out
  {
    seq(|hs|, h requires 0 <= h < |hs| => hs[h].out)
  }

  // -------------------------------------------------------------- layer

  /** A layer's trace, as the visualizer records it. `scores` holds every
      head's attention weights; `postAttention` is the residual stream after
      the attention block, `blockOutput` after the feed-forward block. */
  datatype LayerTrace = LayerTrace(
    preNorm1: Matrix, q: seq<Matrix>, k: seq<Matrix>, v: seq<Matrix>, scores: seq<Matrix>,
    postAttention: Matrix, preNorm2: Matrix, ffnHidden: Matrix, ffnOut: Matrix, blockOutput: Matrix)

  /** The attention half of a block: normalise, run every head, concatenate,
      project, and add back to the residual stream. */
  datatype AttentionOut = AttentionOut(preNorm1: Matrix, heads: seq<HeadOut>, post: Matrix)

  function Attention(m: MathLib, x: Matrix, b: BlockWeights, nHead: nat, e: nat, scale: real): (a: AttentionOut)
    requires Lawful(m) && |x| > 0 && e > 0 && IsMatrix(x, |x|, e) && BlockShaped(b, nHead, e)
    ensures IsMatrix(a.preNorm1, |x|, e) && |a.heads| == nHead && IsMatrix(a.post, |x|, e)
  {
    var pre1 := RmsNormM(m, x, b.ln1);
    var heads := Heads(m, pre1, b, e, scale, nHead);
    AttentionOut(pre1, heads, Project(x, Outs(heads), b.proj, HeadSize(b), e))
  }

  /** The heads' outputs concatenated, projected back to the embedding
      width and added to the residual stream x. */
  function Project(x: Matrix, outs: seq<Matrix>, proj: Matrix, hs: nat, e: nat): (r: Matrix)
    requires |x| > 0 && e > 0 && IsMatrix(x, |x|, e) && hs > 0 && |outs| > 0
    requires forall h :: 0 <= h < |outs| ==> IsMatrix(outs[h], |x|, hs)
    requires IsMatrix(proj, e, |outs| * hs)
    ensures IsMatrix(r, |x|, e)
  {
    var concat := Concat(outs, |x|, hs);
    MulPositive(|outs|, hs);
    AddM(x, LinearOut(concat, proj))
  }

  /** One transformer block (pre-norm attention, then a pre-norm ReLU
      feed-forward, each added to the residual stream) with its trace. */
  function Layer(m: MathLib, x: Matrix, b: BlockWeights, nHead: nat, e: nat, scale: real): (t: LayerTrace)
    requires Lawful(m) && |x| > 0 && e > 0 && IsMatrix(x, |x|, e) && BlockShaped(b, nHead, e)
    ensures IsMatrix(t.blockOutput, |x|, e)
    ensures |t.q| == |t.k| == |t.v| == |t.scores| == nHead
  {
    var a := Attention(m, x, b, nHead, e, scale);
    var f := FeedForward(m, a.post, b, e);
    LayerTrace(a.preNorm1, Qs(a.heads), Ks(a.heads), Vs(a.heads), Attns(a.heads),
               a.post, f.preNorm2, f.hidden, f.out, f.blockOutput)
  }

  function Qs(hs: seq<HeadOut>): (r: seq<Matrix>)
    ensures |r| == |hs| && forall h :: 0 <= h < |hs| ==> r[h] == hs[h].q
  {
    seq(|hs|, h requires 0 <= h < |hs| => hs[h].q)
  }

  function Ks(hs: seq<HeadOut>): (r: seq<Matrix>)
    ensures |r| == |hs| && forall h :: 0 <= h < |hs| ==> r[h] == hs[h].k
  {
    seq(|hs|, h requires 0 <= h < |hs| => hs[h].k)
  }

  function Vs(hs: seq<HeadOut>): (r: seq<Matrix>)
    ensures |r| == |hs| && forall h :: 0 <= h < |hs| ==> r[h] == hs[h].v
  {
    seq(|hs|, h requires 0 <= h < |hs| => hs[h].v)
  }

  function Attns(hs: seq<HeadOut>): (r: seq<Matrix>)
    ensures |r| == |hs| && forall h :: 0 <= h < |hs| ==> r[h] == hs[h].attn
  {
    seq(|hs|, h requires 0 <= h < |hs| => hs[h].attn)
  }

  /** The feed-forward half of a block: normalise, up-project, ReLU,
      down-project, and add to the residual stream. */
  datatype FeedForwardOut = FeedForwardOut(preNorm2: Matrix, hidden: Matrix, out: Matrix, blockOutput: Matrix)

  function FeedForward(m: MathLib, x: Matrix, b: BlockWeights, e: nat): (f: FeedForwardOut)
    requires Lawful(m) && |x| > 0 && e > 0 && IsMatrix(x, |x|, e)
    requires |b.ln2| >= e && |b.net0| > 0 && IsMatrix(b.net0, |b.net0|, e) && IsMatrix(b.net2, e, |b.net0|)
    ensures IsMatrix(f.blockOutput, |x|, e)
  {
    var pre2 := RmsNormM(m, x, b.ln2);
    var hidden := ReluM(LinearOut(pre2, b.net0));
    var ffn := LinearOut(hidden, b.net2);
    FeedForwardOut(pre2, hidden, ffn, AddM(x, ffn))
  }

  /** The residual stream after a number of layers, with their traces. */
  datatype Pass = Pass(x: Matrix, layers: seq<LayerTrace>)

  function Layers(m: MathLib, x: Matrix, blocks: seq<BlockWeights>, nHead: nat, e: nat, scale: real, n: nat): (p: Pass)
    requires Lawful(m) && |x| > 0 && e > 0 && IsMatrix(x, |x|, e)
    requires n <= |blocks| && forall i :: 0 <= i < n ==> BlockShaped(blocks[i], nHead, e)
    ensures IsMatrix(p.x, |x|, e) && |p.layers| == n
    decreases n
  {
    if n == 0 then Pass(x, [])
    else
      var p := Layers(m, x, blocks, nHead, e, scale, n - 1);
      var t := Layer(m, p.x, blocks[n - 1], nHead, e, scale);
      Pass(t.blockOutput, p.layers + [t])
  }

  // ----------------------------------------------------------- sampling

  /** `params`: the sampling settings; the default is temperature 1.0 and
      top-k 50. */
  datatype Params = Params(temperature: real, topK: int)

  const DefaultParams := Params(1.0, 50)

  /** The logits: lm_head's rows dotted with the final position's state. */
  function Logits(lmHead: Matrix, last: Vec): (r: Vec)
    requires IsMatrix(lmHead, |lmHead|, |last|)
    ensures |r| == |lmHead| && forall i :: 0 <= i < |lmHead| ==> r[i] == Dot(lmHead[i], last)
  {
    seq(|lmHead|, i requires 0 <= i < |lmHead| => Dot(lmHead[i], last))
  }

  /** The temperature actually divided by: never below 1e-5. */
  function Temperature(t: real): (r: real)
    ensures r >= 0.00001 && (t >= 0.00001 ==> r == t)
  {
    MaxReal(t, 0.00001)
  }

  /** Strictly descending order allowing ties. */
  predicate SortedDesc(s: seq<real>)
  {
    forall i, j :: 0 <= i < j < |s| ==> s[i] >= s[j]
  }

  function InsertDesc(x: real, s: seq<real>): (r: seq<real>)
    requires SortedDesc(s)
    ensures |r| == |s| + 1 && SortedDesc(r) && multiset(r) == multiset(s) + multiset{x}
    ensures r[0] == x || (|s| > 0 && r[0] == s[0])
    decreases |s|
  {
    if s == [] || x >= s[0] then [x] + s
    else
      var rest := InsertDesc(x, s[1..]);
      assert s == [s[0]] + s[1..];
      assert s[0] >= rest[0];
      [s[0]] + rest
  }

  /** `[...logits].sort((a, b) => b - a)`: the logits in descending order. */
  function SortDesc(s: seq<real>): (r: seq<real>)
    ensures SortedDesc(r) && multiset(r) == multiset(s)
    decreases |s|
  {
    if s == [] then []
    else
      assert s == s[..|s| - 1] + [s[|s| - 1]];
      InsertDesc(s[|s| - 1], SortDesc(s[..|s| - 1]))
  }

  /** The k-th largest logit, the top-k cutoff. */
  function Cutoff(l: seq<real>, k: int): real
    requires 0 < k < |l|
  {
    assert |SortDesc(l)| == |multiset(l)|;
    SortDesc(l)[k - 1]
  }

  /** Top-k filtering: logits below the k-th largest become -1e9. */
  function TopK(l: seq<real>, k: int): (r: seq<real>)
    requires 0 < k < |l|
    ensures |r| == |l|
    ensures forall i :: 0 <= i < |l| ==> r[i] == if l[i] >= Cutoff(l, k) then l[i] else MaskValue
  {
    var cutoff := Cutoff(l, k);
    seq(|l|, i requires 0 <= i < |l| => if l[i] >= cutoff then l[i] else MaskValue)
  }

  /** The logits after temperature scaling and, when 0 < topK < the vocabulary
      size, top-k filtering. */
  function SampledLogits(logits: Vec, p: Params): (r: Vec)
    ensures |r| == |logits|
  {
    var scaled := Divided(logits, Temperature(p.temperature));
    if 0 < p.topK < |scaled| then TopK(scaled, p.topK) else scaled
  }

  /** `logits.map(l => l / temp)`. */
  function Divided(l: Vec, t: real): (r: Vec)
    requires t != 0.0
    ensures |r| == |l| && forall i :: 0 <= i < |l| ==> r[i] == l[i] / t
  {
    seq(|l|, i requires 0 <= i < |l| => l[i] / t)
  }

  /** The number of entries of s that satisfy keep. */
  function Count(s: seq<real>, keep: real -> bool): (n: nat)
    ensures n <= |s|
    decreases |s|
  {
    if s == [] then 0 else Count(s[..|s| - 1], keep) + (if keep(s[|s| - 1]) then 1 else 0)
  }

  function AtLeast(c: real): real -> bool { x => x >= c }

  function Above(c: real): real -> bool { x => x > c }

  lemma {:induction false} CountAppend(a: seq<real>, b: seq<real>, keep: real -> bool)
    ensures Count(a + b, keep) == Count(a, keep) + Count(b, keep)
    decreases |b|
  {
    if b == [] {
      assert a + b == a;
    } else {
      assert (a + b)[..|a + b| - 1] == a + b[..|b| - 1];
      CountAppend(a, b[..|b| - 1], keep);
    }
  }

  /** Count depends only on the multiset of entries. */
  lemma {:induction false} CountPerm(a: seq<real>, b: seq<real>, keep: real -> bool)
    requires multiset(a) == multiset(b)
    ensures Count(a, keep) == Count(b, keep)
    decreases |a|
  {
    if a != [] {
      var y := a[|a| - 1];
      assert a == a[..|a| - 1] + [y];
      assert y in multiset(b);
      var j :| 0 <= j < |b| && b[j] == y;
      assert b == b[..j] + [y] + b[j + 1..];
      var b' := b[..j] + b[j + 1..];
      assert multiset(b) == multiset(b[..j]) + multiset{y} + multiset(b[j + 1..]);
      assert multiset(a) == multiset(a[..|a| - 1]) + multiset{y};
      assert multiset(b') == multiset(b[..j]) + multiset(b[j + 1..]);
      assert multiset(b') == multiset(b) - multiset{y};
      assert multiset(a[..|a| - 1]) == multiset(a) - multiset{y};
      assert multiset(a[..|a| - 1]) == multiset(b');
      CountPerm(a[..|a| - 1], b', keep);
      CountAppend(b[..j] + [y], b[j + 1..], keep);
      CountAppend(b[..j], [y], keep);
      CountAppend(b[..j], b[j + 1..], keep);
      assert [y][..0] == [];
    }
  }

  /** k leading entries that satisfy keep give a count of at least k. */
  lemma {:induction false} CountPrefix(s: seq<real>, k: nat, keep: real -> bool)
    requires k <= |s| && forall i :: 0 <= i < k ==> keep(s[i])
    ensures Count(s, keep) >= k
    decreases |s|
  {
    if |s| > 0 {
      var s' := s[..|s| - 1];
      if k == |s| {
        CountPrefix(s', k - 1, keep);
      } else {
        CountPrefix(s', k, keep);
      }
    }
  }

  /** When every entry from k on fails keep, the count is at most k. */
  lemma {:induction false} CountSuffix(s: seq<real>, k: nat, keep: real -> bool)
    requires k <= |s| && forall i :: k <= i < |s| ==> !keep(s[i])
    ensures Count(s, keep) <= k
    decreases |s|
  {
    if |s| > k {
      CountSuffix(s[..|s| - 1], k, keep);
    }
  }

  /** In a descending list, the first k entries reach entry k-1 and fewer
      than k exceed it. */
  lemma SortedCounts(s: seq<real>, k: nat)
    requires SortedDesc(s) && 0 < k <= |s|
    ensures Count(s, AtLeast(s[k - 1])) >= k
    ensures Count(s, Above(s[k - 1])) < k
  {
    var c := s[k - 1];
    forall i | 0 <= i < k ensures AtLeast(c)(s[i]) {
      assert s[i] >= s[k - 1];
    }
    CountPrefix(s, k, AtLeast(c));
    forall i | k - 1 <= i < |s| ensures !Above(c)(s[i]) {
      assert s[k - 1] >= s[i];
    }
    CountSuffix(s, k - 1, Above(c));
  }

  /** The cutoff is the k-th largest logit: at least k logits reach it, so
      at least k survive the filter, and fewer than k exceed it. */
  lemma TopKSurvivors(l: seq<real>, k: int)
    requires 0 < k < |l|
    ensures Count(l, AtLeast(Cutoff(l, k))) >= k
    ensures Count(l, Above(Cutoff(l, k))) < k
  {
    var s := SortDesc(l);
    assert |s| == |multiset(l)|;
    SortedCounts(s, k);
    CountPerm(s, l, AtLeast(s[k - 1]));
    CountPerm(s, l, Above(s[k - 1]));
  }

  // ------------------------------------------------------------- argmax

  /** The greedy scan: the running maximum starts at -1 with index 0 and is
      replaced by every strictly larger probability. */
  datatype Best = Best(maxProb: real, id: nat)

  function Scan(p: seq<real>, n: nat): (b: Best)
    requires n <= |p|
    decreases n
  {
    if n == 0 then Best(-1.0, 0)
    else
      var b := Scan(p, n - 1);
      if p[n - 1] > b.maxProb then Best(p[n - 1], n - 1) else b
  }

  /** The predicted token: the first index of the largest probability. */
  function FirstMax(p: seq<real>): nat
  {
    Scan(p, |p|).id
  }

  /** When some probability exceeds -1, the scan ends on the first index of
      the maximum; otherwise it stays at index 0. */
  lemma {:induction false} ScanFindsFirstMax(p: seq<real>, n: nat)
    requires n <= |p|
    ensures (forall j :: 0 <= j < n ==> p[j] <= -1.0) ==> Scan(p, n) == Best(-1.0, 0)
    ensures (exists j :: 0 <= j < n && p[j] > -1.0) ==>
      && Scan(p, n).id < n && Scan(p, n).maxProb == p[Scan(p, n).id] > -1.0
      && (forall j :: 0 <= j < n ==> p[j] <= p[Scan(p, n).id])
      && (forall j :: 0 <= j < Scan(p, n).id ==> p[j] < p[Scan(p, n).id])
    decreases n
  {
    if n > 0 {
      ScanFindsFirstMax(p, n - 1);
    }
  }

  /** On a distribution (every entry positive), the prediction is an index
      of the largest probability, and no earlier index holds it. */
  lemma FirstMaxOfDistribution(p: seq<real>)
    requires |p| > 0 && forall j :: 0 <= j < |p| ==> p[j] > 0.0
    ensures FirstMax(p) < |p|
    ensures forall j :: 0 <= j < |p| ==> p[j] <= p[FirstMax(p)]
    ensures forall j :: 0 <= j < FirstMax(p) ==> p[j] < p[FirstMax(p)]
  {
    ScanFindsFirstMax(p, |p|);
    assert p[0] > -1.0;
  }

  // ----------------------------------------------------------- inference

  /** The full trace runInference returns. `predictedToken` is left empty
      for the caller to fill. */
  datatype InferenceTrace = InferenceTrace(
    inputTokens: seq<string>, inputIds: seq<int>, tokenEmbeddings: Matrix, posEmbeddings: Matrix,
    layers: seq<LayerTrace>, finalNorm: Matrix, logits: Vec, probabilities: Vec,
    predictedTokenId: nat, predictedToken: string)

  /** What the tracer reads: a non-empty sequence of token ids that index
      the embedding table, no longer than the position table, and weights
      of the shapes the config names. */
  predicate InferencePre(ids: seq<int>, c: ModelConfig, w: ModelWeights)
  {
    && 0 < |ids| <= |w.positionEmbedding|
    && 0 < c.nEmbd && 0 < c.nHead
    && (forall i :: 0 <= i < |ids| ==> 0 <= ids[i] < |w.tokenEmbedding|)
    && IsMatrix(w.tokenEmbedding, |w.tokenEmbedding|, c.nEmbd)
    && IsMatrix(w.positionEmbedding, |w.positionEmbedding|, c.nEmbd)
    && c.nLayer <= |w.blocks|
    && (forall i :: 0 <= i < c.nLayer ==> BlockShaped(w.blocks[i], c.nHead, c.nEmbd))
    && |w.lnF| >= c.nEmbd
    && IsMatrix(w.lmHead, |w.lmHead|, c.nEmbd)
  }

  /** `1 / Math.sqrt(headSize)` with headSize = n_embd / n_head. */
  function AttentionScale(m: MathLib, c: ModelConfig): real
    requires Lawful(m) && 0 < c.nEmbd && 0 < c.nHead
  {
    assert m.sqrt(c.nEmbd as real / c.nHead as real) > 0.0;
    1.0 / m.sqrt(c.nEmbd as real / c.nHead as real)
  }

  function TokenEmbeddings(ids: seq<int>, w: ModelWeights): (r: Matrix)
    requires forall i :: 0 <= i < |ids| ==> 0 <= ids[i] < |w.tokenEmbedding|
    ensures |r| == |ids| && forall i :: 0 <= i < |ids| ==> r[i] == w.tokenEmbedding[ids[i]]
  {
    seq(|ids|, i requires 0 <= i < |ids| => w.tokenEmbedding[ids[i]])
  }

  /** The embeddings of the sequence, before any layer. */
  function InputStream(ids: seq<int>, c: ModelConfig, w: ModelWeights): (x: Matrix)
    requires InferencePre(ids, c, w)
    ensures IsMatrix(x, |ids|, c.nEmbd)
  {
    AddM(TokenEmbeddings(ids, w), w.positionEmbedding[..|ids|])
  }

  /** runInference: the trace of one forward pass over the sequence and the
      greedy prediction for the position after it. */
  function Inference(m: MathLib, tokens: seq<string>, ids: seq<int>, c: ModelConfig, w: ModelWeights, p: Params): (t: InferenceTrace)
    requires Lawful(m) && InferencePre(ids, c, w)
    ensures |t.layers| == c.nLayer
    ensures IsMatrix(t.finalNorm, |ids|, c.nEmbd)
    ensures |t.logits| == |t.probabilities| == |w.lmHead|
  {
    var x := InputStream(ids, c, w);
    var pass := Layers(m, x, w.blocks, c.nHead, c.nEmbd, AttentionScale(m, c), c.nLayer);
    var out := Readout(m, pass.x, c.nEmbd, w, p);
    InferenceTrace(tokens, ids, TokenEmbeddings(ids, w), w.positionEmbedding[..|ids|],
                   pass.layers, out.finalNorm, out.logits, out.probabilities,
                   FirstMax(out.probabilities), "")
  }

  /** The final norm, the sampled logits of the last position and their
      softmax. */
  datatype ReadoutOut = ReadoutOut(finalNorm: Matrix, logits: Vec, probabilities: Vec)

  function Readout(m: MathLib, x: Matrix, e: nat, w: ModelWeights, p: Params): (r: ReadoutOut)
    requires Lawful(m) && |x| > 0 && IsMatrix(x, |x|, e)
    requires |w.lnF| >= e && IsMatrix(w.lmHead, |w.lmHead|, e)
    ensures IsMatrix(r.finalNorm, |x|, e)
    ensures |r.logits| == |r.probabilities| == |w.lmHead|
    ensures r.probabilities == Kernels.Softmax(m, r.logits)
  {
    var fin := RmsNormM(m, x, w.lnF);
    var logits := SampledLogits(Logits(w.lmHead, fin[|x| - 1]), p);
    ReadoutOut(fin, logits, Kernels.Softmax(m, logits))
  }

  /** With a non-empty vocabulary, the probabilities form a distribution
      and the prediction is the first token of largest probability. */
  lemma InferencePrediction(m: MathLib, tokens: seq<string>, ids: seq<int>, c: ModelConfig, w: ModelWeights, p: Params)
    requires Lawful(m) && InferencePre(ids, c, w) && |w.lmHead| > 0
    ensures var t := Inference(m, tokens, ids, c, w, p);
      && Sum(t.probabilities) == 1.0
      && t.predictedTokenId < |w.lmHead|
      && (forall j :: 0 <= j < |w.lmHead| ==> t.probabilities[j] <= t.probabilities[t.predictedTokenId])
      && (forall j :: 0 <= j < t.predictedTokenId ==> t.probabilities[j] < t.probabilities[t.predictedTokenId])
  {
    var t := Inference(m, tokens, ids, c, w, p);
    Kernels.SoftmaxSumsToOne(m, t.logits);
    FirstMaxOfDistribution(t.probabilities);
  }
}
