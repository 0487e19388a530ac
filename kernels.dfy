/**
 * What the CPU kernels compute, as functions of the flat row-major contents
 * of their operands. The kernel methods over Tensors (module CpuKernels) are
 * proved to produce exactly these; the model's forward and backward passes
 * are written with them.
 */
module Kernels {
  import opened Numeric

  // ------------------------------------------------------------ matmul

  /** [M, K] x [K, N] -> [M, N]: entry (i, j) is row i of a dotted with column j of b. */
  function MatMul(a: Vec, b: Vec, M: nat, K: nat, N: nat): (r: Vec)
    requires |a| == M * K && |b| == K * N
    ensures |r| == M * N
  {
    seq(M * N, idx requires 0 <= idx < M * N =>
      DivBound(idx, M, N);
      MatMulEntry(a, b, M, K, N, idx / N, idx % N))
  }

  /** Row i of a dotted with column j of b. */
  function MatMulEntry(a: Vec, b: Vec, M: nat, K: nat, N: nat, i: nat, j: nat): real
    requires |a| == M * K && |b| == K * N && i < M && j < N
  {
    MulMonotone(i + 1, M, K);
    Dot(RowOf(a, K, i), ColOf(b, K, N, j))
  }

  lemma MatMulAt(a: Vec, b: Vec, M: nat, K: nat, N: nat, i: nat, j: nat)
    requires |a| == M * K && |b| == K * N && i < M && j < N
    ensures (i + 1) * K <= |a| && 0 <= i * N && i * N + j < M * N
    ensures MatMul(a, b, M, K, N)[i * N + j] == Dot(RowOf(a, K, i), ColOf(b, K, N, j))
  {
    MulMonotone(i + 1, M, K);
    RowColInRange(i, j, M, N);
    DivModRowCol(i, j, N);
  }

  /** The dA of matmulBackward: entry (i, k) is row i of dOut dotted with row k of b. */
  function MatMulBackA(dOut: Vec, b: Vec, M: nat, K: nat, N: nat): (r: Vec)
    requires |dOut| == M * N && |b| == K * N
    ensures |r| == M * K
  {
    seq(M * K, idx requires 0 <= idx < M * K =>
      DivBound(idx, M, K);
      MulMonotone(idx / K + 1, M, N);
      MulMonotone(idx % K + 1, K, N);
      Dot(RowOf(dOut, N, idx / K), RowOf(b, N, idx % K)))
  }

  /** The dB of matmulBackward: entry (k, j) is column k of a dotted with column j of dOut. */
  function MatMulBackB(a: Vec, dOut: Vec, M: nat, K: nat, N: nat): (r: Vec)
    requires |a| == M * K && |dOut| == M * N
    ensures |r| == K * N
  {
    seq(K * N, idx requires 0 <= idx < K * N =>
      DivBound(idx, K, N);
      Dot(ColOf(a, M, K, idx / N), ColOf(dOut, M, N, idx % N)))
  }

  lemma MatMulBackAAt(dOut: Vec, b: Vec, M: nat, K: nat, N: nat, i: nat, k: nat)
    requires |dOut| == M * N && |b| == K * N && i < M && k < K
    ensures (i + 1) * N <= |dOut| && (k + 1) * N <= |b| && 0 <= i * K && i * K + k < M * K
    ensures MatMulBackA(dOut, b, M, K, N)[i * K + k] == Dot(RowOf(dOut, N, i), RowOf(b, N, k))
  {
    MulMonotone(i + 1, M, N);
    MulMonotone(k + 1, K, N);
    RowColInRange(i, k, M, K);
    DivModRowCol(i, k, K);
  }

  lemma MatMulBackBAt(a: Vec, dOut: Vec, M: nat, K: nat, N: nat, k: nat, j: nat)
    requires |a| == M * K && |dOut| == M * N && k < K && j < N
    ensures 0 <= k * N && k * N + j < K * N
    ensures MatMulBackB(a, dOut, M, K, N)[k * N + j] == Dot(ColOf(a, M, K, k), ColOf(dOut, M, N, j))
  {
    RowColInRange(k, j, K, N);
    DivModRowCol(k, j, N);
  }

  /** dA = dOut . B^T */
  lemma {:induction false} MatMulBackAIsProduct(dOut: Vec, b: Vec, M: nat, K: nat, N: nat)
    requires |dOut| == M * N && |b| == K * N
    ensures MatMulBackA(dOut, b, M, K, N) == MatMul(dOut, Transpose(b, K, N), M, N, K)
  {
    var l, r := MatMulBackA(dOut, b, M, K, N), MatMul(dOut, Transpose(b, K, N), M, N, K);
    forall idx | 0 <= idx < M * K ensures l[idx] == r[idx] {
      DivBound(idx, M, K);
      var i, k := idx / K, idx % K;
      MatMulAt(dOut, Transpose(b, K, N), M, N, K, i, k);
      TransposeCol(b, K, N, k);
      assert idx == i * K + k;
    }
  }

  /** dB = A^T . dOut */
  lemma {:induction false} MatMulBackBIsProduct(a: Vec, dOut: Vec, M: nat, K: nat, N: nat)
    requires |a| == M * K && |dOut| == M * N
    ensures MatMulBackB(a, dOut, M, K, N) == MatMul(Transpose(a, M, K), dOut, K, M, N)
  {
    var l, r := MatMulBackB(a, dOut, M, K, N), MatMul(Transpose(a, M, K), dOut, K, M, N);
    forall idx | 0 <= idx < K * N ensures l[idx] == r[idx] {
      DivBound(idx, K, N);
      var k, j := idx / N, idx % N;
      MatMulAt(Transpose(a, M, K), dOut, K, M, N, k, j);
      TransposeRow(a, M, K, k);
      assert idx == k * N + j;
    }
  }

  // ------------------------------------------------------------ linear

  /** x [inDim] through W [outDim, inDim]: entry i is row i of W dotted with x. */
  function Linear(w: Vec, x: Vec, outDim: nat, inDim: nat): (r: Vec)
    requires |w| == outDim * inDim && |x| == inDim
    ensures |r| == outDim
  {
    seq(outDim, i requires 0 <= i < outDim =>
      MulMonotone(i + 1, outDim, inDim); Dot(RowOf(w, inDim, i), x))
  }

  /** linear is the matrix product W . x with x as a one-column matrix. */
  lemma {:induction false} LinearIsMatMul(w: Vec, x: Vec, outDim: nat, inDim: nat)
    requires |w| == outDim * inDim && |x| == inDim
    ensures Linear(w, x, outDim, inDim) == MatMul(w, x, outDim, inDim, 1)
  {
    var l, r := Linear(w, x, outDim, inDim), MatMul(w, x, outDim, inDim, 1);
    forall i | 0 <= i < outDim ensures l[i] == r[i] {
      MatMulAt(w, x, outDim, inDim, 1, i, 0);
      forall k | 0 <= k < inDim ensures ColOf(x, inDim, 1, 0)[k] == x[k] {
        ColOfAt(x, inDim, 1, 0, k);
      }
      assert ColOf(x, inDim, 1, 0) == x;
    }
  }

  /** The dX of linearBackward: entry j is column j of W dotted with dOut. */
  function LinearBackX(w: Vec, dOut: Vec, outDim: nat, inDim: nat): (r: Vec)
    requires |w| == outDim * inDim && |dOut| == outDim
    ensures |r| == inDim
  {
    seq(inDim, j requires 0 <= j < inDim => Dot(ColOf(w, outDim, inDim, j), dOut))
  }

  /** dX = W^T . dOut */
  lemma {:induction false} LinearBackXIsTransposed(w: Vec, dOut: Vec, outDim: nat, inDim: nat)
    requires |w| == outDim * inDim && |dOut| == outDim
    ensures LinearBackX(w, dOut, outDim, inDim) == Linear(Transpose(w, outDim, inDim), dOut, inDim, outDim)
  {
    var l, r := LinearBackX(w, dOut, outDim, inDim), Linear(Transpose(w, outDim, inDim), dOut, inDim, outDim);
    forall j | 0 <= j < inDim ensures l[j] == r[j] {
      TransposeRow(w, outDim, inDim, j);
    }
  }

  /** dX is linear in the upstream gradient. */
  lemma {:induction false} LinearBackXAdditive(w: Vec, d1: Vec, d2: Vec, outDim: nat, inDim: nat)
    requires |w| == outDim * inDim && |d1| == outDim && |d2| == outDim
    ensures LinearBackX(w, VecAdd(d1, d2), outDim, inDim)
      == VecAdd(LinearBackX(w, d1, outDim, inDim), LinearBackX(w, d2, outDim, inDim))
  {
    var l := LinearBackX(w, VecAdd(d1, d2), outDim, inDim);
    var r := VecAdd(LinearBackX(w, d1, outDim, inDim), LinearBackX(w, d2, outDim, inDim));
    forall j | 0 <= j < inDim ensures l[j] == r[j] {
      var c := ColOf(w, outDim, inDim, j);
      DotSymmetric(c, VecAdd(d1, d2));
      DotLinearLeft(d1, d2, c);
      DotSymmetric(d1, c);
      DotSymmetric(d2, c);
    }
  }

  /** The dW of linearBackward: the outer product dOut x^T. It is additive in
      dOut, which is what lets trainStep sum upstream gradients first. */
  lemma {:induction false} LinearBackWAdditive(d1: Vec, d2: Vec, x: Vec)
    requires |d1| == |d2|
    ensures Outer(VecAdd(d1, d2), x) == VecAdd(Outer(d1, x), Outer(d2, x))
  {
    OuterAddLeft(d1, d2, x);
  }

  // ------------------------------------------------------------ softmax

  /** exp(x[i] - shift) for every i. */
  function Exps(m: MathLib, x: Vec, shift: real): (r: Vec)
    requires Lawful(m)
    ensures |r| == |x| && forall i :: 0 <= i < |x| ==> r[i] > 0.0
  {
    seq(|x|, i requires 0 <= i < |x| => m.exp(x[i] - shift))
  }

  /** softmax: exponentials shifted by the maximum, divided by their sum. An
      empty input gives an empty output. */
  function Softmax(m: MathLib, x: Vec): (r: Vec)
    requires Lawful(m)
    ensures |r| == |x|
    ensures forall i :: 0 <= i < |r| ==> r[i] > 0.0
  {
    if |x| == 0 then []
    else
      var e := Exps(m, x, Max(x));
      SumPositive(e);
      DivideBy(e, Sum(e))
  }

  /** Every entry of e divided by a positive s. */
  function DivideBy(e: Vec, s: real): (r: Vec)
    requires s > 0.0 && forall i :: 0 <= i < |e| ==> e[i] > 0.0
    ensures |r| == |e| && forall i :: 0 <= i < |e| ==> r[i] == e[i] / s && r[i] > 0.0
  {
    seq(|e|, i requires 0 <= i < |e| => e[i] / s)
  }

  /** Dividing by s is scaling by 1 / s. */
  lemma DivideIsScale(e: Vec, s: real)
    requires s > 0.0 && forall i :: 0 <= i < |e| ==> e[i] > 0.0
    ensures DivideBy(e, s) == VecScale(e, 1.0 / s)
  {
    forall i | 0 <= i < |e| ensures DivideBy(e, s)[i] == VecScale(e, 1.0 / s)[i] {
      DivIsScale(e[i], s);
    }
  }

  lemma DivIsScale(a: real, s: real)
    requires s != 0.0
    ensures a / s == a * (1.0 / s)
  {
  }

  lemma InverseCancels(s: real)
    requires s != 0.0
    ensures s * (1.0 / s) == 1.0
  {
  }

  /** A non-empty softmax output is a probability distribution. */
  lemma {:induction false} SoftmaxSumsToOne(m: MathLib, x: Vec)
    requires Lawful(m) && |x| > 0
    ensures Sum(Softmax(m, x)) == 1.0
  {
    var e := Exps(m, x, Max(x));
    SumPositive(e);
    assert Softmax(m, x) == DivideBy(e, Sum(e));
    DivideIsScale(e, Sum(e));
    SumScale(e, 1.0 / Sum(e));
    InverseCancels(Sum(e));
  }

  /** Every softmax output is below 1 when there are at least two inputs. */
  lemma {:induction false} SoftmaxBelowOne(m: MathLib, x: Vec, i: nat)
    requires Lawful(m) && |x| >= 2 && i < |x|
    ensures Softmax(m, x)[i] < 1.0
  {
    var p := Softmax(m, x);
    SoftmaxSumsToOne(m, x);
    var j := if i == 0 then 1 else 0;
    SumSplitOut(p, i, j);
  }

  /** In a positive sequence, one element plus another distinct one is at most the sum. */
  lemma {:induction false} SumSplitOut(s: Vec, i: nat, j: nat)
    requires i < |s| && j < |s| && i != j
    requires forall k :: 0 <= k < |s| ==> s[k] > 0.0
    ensures s[i] + s[j] <= Sum(s)
  {
    var n := |s| - 1;
    var pre := s[..n];
    if i == n || j == n {
      var o := if i == n then j else i;
      SumAtLeastElement(pre, o);
    } else {
      SumSplitOut(pre, i, j);
    }
  }

  lemma {:induction false} SumAtLeastElement(s: Vec, i: nat)
    requires i < |s|
    requires forall k :: 0 <= k < |s| ==> s[k] > 0.0
    ensures s[i] <= Sum(s)
  {
    var n := |s| - 1;
    if i < n {
      SumAtLeastElement(s[..n], i);
    } else {
      SumNonNegative(s[..n]);
    }
  }

  /** s[i] * (d[i] - c) for every i. */
  function Gated(d: Vec, s: Vec, c: real): (r: Vec)
    requires |d| == |s|
    ensures |r| == |s|
  {
    seq(|s|, i requires 0 <= i < |s| => s[i] * (d[i] - c))
  }

  /** softmaxBackward: dInput[i] = s[i] * (dOut[i] - dOut . s). */
  function SoftmaxBackward(dOut: Vec, s: Vec): (r: Vec)
    requires |dOut| == |s|
    ensures |r| == |s|
  {
    Gated(dOut, s, Dot(dOut, s))
  }

  /** When s is a distribution, the softmax gradient sums to zero: moving
      along it keeps the probabilities summing to 1. */
  lemma {:induction false} SoftmaxBackwardSumsToZero(dOut: Vec, s: Vec)
    requires |dOut| == |s| && Sum(s) == 1.0
    ensures Sum(SoftmaxBackward(dOut, s)) == 0.0
  {
    SumGated(dOut, s, Dot(dOut, s));
  }

  lemma GatedPrefix(d: Vec, s: Vec, c: real, n: nat)
    requires |d| == |s| && n <= |s|
    ensures Gated(d, s, c)[..n] == Gated(d[..n], s[..n], c)
  {
    forall i | 0 <= i < n ensures Gated(d, s, c)[..n][i] == Gated(d[..n], s[..n], c)[i] {
      assert s[..n][i] == s[i] && d[..n][i] == d[i];
    }
  }

  lemma GatedStep(pd: real, ps: real, dn: real, sn: real, c: real)
    ensures (pd - c * ps) + sn * (dn - c) == (pd + dn * sn) - c * (ps + sn)
  {
  }

  /** Sum_i s[i] * (d[i] - c) = d . s - c * Sum(s). */
  lemma {:induction false} SumGated(d: Vec, s: Vec, c: real)
    requires |d| == |s|
    ensures Sum(Gated(d, s, c)) == Dot(d, s) - c * Sum(s)
  {
    if |s| > 0 {
      var n := |s| - 1;
      var f := Gated(d, s, c);
      GatedPrefix(d, s, c, n);
      SumGated(d[..n], s[..n], c);
      assert Sum(f) == Sum(f[..n]) + f[n];
      GatedStep(Dot(d[..n], s[..n]), Sum(s[..n]), d[n], s[n], c);
    }
  }

  // ------------------------------------------------------------ rmsNorm

  /** The default epsilon of rmsNorm. */
  const RmsEps: real := 0.00001

  /** sqrt(sum of squares / n + eps): the accumulated sum of squares is x . x. */
  function Rms(m: MathLib, x: Vec, eps: real): (r: real)
    requires Lawful(m) && |x| > 0 && eps > 0.0
    ensures r > 0.0
  {
    DotSelfNonNegative(x);
    m.sqrt(Dot(x, x) / (|x| as real) + eps)
  }

  /** rmsNorm's output: every entry divided by the rms. */
  function RmsNorm(m: MathLib, x: Vec, eps: real): (r: Vec)
    requires Lawful(m) && |x| > 0 && eps > 0.0
    ensures |r| == |x|
    ensures forall i :: 0 <= i < |x| ==> r[i] * Rms(m, x, eps) == x[i]
  {
    var rms := Rms(m, x, eps);
    seq(|x|, i requires 0 <= i < |x| => x[i] / rms)
  }

  /** rmsNorm preserves signs and scales every entry by the same positive factor. */
  lemma RmsNormScales(m: MathLib, x: Vec, eps: real)
    requires Lawful(m) && |x| > 0 && eps > 0.0
    ensures RmsNorm(m, x, eps) == VecScale(x, 1.0 / Rms(m, x, eps))
  {
    var rms := Rms(m, x, eps);
    var r := RmsNorm(m, x, eps);
    forall i | 0 <= i < |x| ensures r[i] == VecScale(x, 1.0 / rms)[i] {
      assert r[i] == x[i] / rms;
      assert x[i] / rms == x[i] * (1.0 / rms);
    }
  }

  /** n * rms^3, the denominator of rmsNormBackward's second term. */
  function RmsCubeScale(n: nat, rms: real): (r: real)
    requires n > 0 && rms > 0.0
    ensures r > 0.0
  {
    assert rms * rms > 0.0;
    (n as real) * (rms * rms * rms)
  }

  /** dIn[i] = dOut[i]/rms - x[i]*d/(n*rms^3), for a given d. */
  function RmsBack(dOut: Vec, x: Vec, rms: real, d: real): (r: Vec)
    requires |dOut| == |x| && rms > 0.0
    ensures |r| == |x|
  {
    seq(|x|, i requires 0 <= i < |x| => dOut[i] / rms - x[i] * d / RmsCubeScale(|x|, rms))
  }

  /** rmsNormBackward, for a given rms: dIn[i] = dOut[i]/rms - x[i]*(x . dOut)/(n*rms^3). */
  function RmsNormBackward(dOut: Vec, x: Vec, rms: real): (r: Vec)
    requires |dOut| == |x| && rms > 0.0
    ensures |r| == |x|
  {
    RmsBack(dOut, x, rms, Dot(x, dOut))
  }

  /** rmsNormBackward is linear in the upstream gradient. */
  lemma {:induction false} RmsNormBackwardAdditive(d1: Vec, d2: Vec, x: Vec, rms: real)
    requires |d1| == |x| && |d2| == |x| && rms > 0.0
    ensures RmsNormBackward(VecAdd(d1, d2), x, rms)
      == VecAdd(RmsNormBackward(d1, x, rms), RmsNormBackward(d2, x, rms))
  {
    DotSymmetric(x, VecAdd(d1, d2));
    DotLinearLeft(d1, d2, x);
    DotSymmetric(d1, x);
    DotSymmetric(d2, x);
    RmsBackAdditive(d1, d2, x, rms, Dot(x, d1), Dot(x, d2));
  }

  /** RmsBack is additive in the upstream gradient and the dot product together. */
  lemma RmsBackAdditive(d1: Vec, d2: Vec, x: Vec, rms: real, a: real, b: real)
    requires |d1| == |x| && |d2| == |x| && rms > 0.0
    ensures RmsBack(VecAdd(d1, d2), x, rms, a + b) == VecAdd(RmsBack(d1, x, rms, a), RmsBack(d2, x, rms, b))
  {
    var l := RmsBack(VecAdd(d1, d2), x, rms, a + b);
    var r := VecAdd(RmsBack(d1, x, rms, a), RmsBack(d2, x, rms, b));
    forall i | 0 <= i < |x| ensures l[i] == r[i] {
      EntryAdditive(d1[i], d2[i], x[i], a, b, rms, RmsCubeScale(|x|, rms));
    }
  }

  /** One entry of RmsNormBackwardAdditive, over reals only. */
  lemma EntryAdditive(g1: real, g2: real, xi: real, a: real, b: real, rms: real, q: real)
    requires rms != 0.0 && q != 0.0
    ensures (g1 + g2) / rms - xi * (a + b) / q == (g1 / rms - xi * a / q) + (g2 / rms - xi * b / q)
  {
    assert xi * (a + b) == xi * a + xi * b;
    DivAdd(xi * a, xi * b, q);
    DivAdd(g1, g2, rms);
  }

  lemma DivAdd(u: real, v: real, q: real)
    requires q != 0.0
    ensures (u + v) / q == u / q + v / q
  {
  }

  // ------------------------------------------------------ elementwise ops

  function Relu(x: Vec): (r: Vec)
    ensures |r| == |x|
    ensures forall i :: 0 <= i < |x| ==> r[i] >= 0.0 && (r[i] == x[i] || r[i] == 0.0)
  {
    seq(|x|, i requires 0 <= i < |x| => MaxReal(0.0, x[i]))
  }

  /** reluBackward: the upstream gradient passes where the input was positive. */
  function ReluBackward(dOut: Vec, input: Vec): (r: Vec)
    requires |dOut| == |input|
    ensures |r| == |input|
  {
    seq(|input|, i requires 0 <= i < |input| => if input[i] > 0.0 then dOut[i] else 0.0)
  }

  /** relu keeps exactly the positive entries, so it is its own gate: relu(x)
      is reluBackward applied to x itself, and applying it twice changes nothing. */
  lemma ReluIsSelfGated(x: Vec)
    ensures Relu(x) == ReluBackward(x, x)
    ensures Relu(Relu(x)) == Relu(x)
  {
  }

  /** reluBackward passes dOut[i] iff the input is positive (for a non-zero dOut[i]). */
  lemma ReluBackwardGate(dOut: Vec, input: Vec, i: nat)
    requires |dOut| == |input| && i < |input| && dOut[i] != 0.0
    ensures ReluBackward(dOut, input)[i] == dOut[i] <==> input[i] > 0.0
  {
  }

  // ------------------------------------------------------ cross entropy

  /** The 1e-10 added inside the log of crossEntropyLoss. */
  const LogGuard: real := 0.0000000001

  /** crossEntropyLoss: the loss -log(p[target] + 1e-10) and the gradient
      softmax(logits) - onehot(target). */
  function CrossEntropy(m: MathLib, logits: Vec, target: nat): (r: (real, Vec))
    requires Lawful(m) && target < |logits|
    ensures |r.1| == |logits|
    ensures r.1[target] == Softmax(m, logits)[target] - 1.0
    ensures forall i :: 0 <= i < |logits| && i != target ==> r.1[i] == Softmax(m, logits)[i]
  {
    var probs := Softmax(m, logits);
    (-m.log(probs[target] + LogGuard), probs[target := probs[target] - 1.0])
  }

  /** The cross-entropy gradient sums to zero, is negative only at the
      target, and lies in (-1, 1). */
  lemma {:induction false} CrossEntropyGradient(m: MathLib, logits: Vec, target: nat)
    requires Lawful(m) && target < |logits|
    ensures Sum(CrossEntropy(m, logits, target).1) == 0.0
    ensures |logits| >= 2 ==> CrossEntropy(m, logits, target).1[target] < 0.0
    ensures |logits| == 1 ==> CrossEntropy(m, logits, target).1 == [0.0]
    ensures forall i :: 0 <= i < |logits| && i != target ==> CrossEntropy(m, logits, target).1[i] > 0.0
  {
    var p := Softmax(m, logits);
    var g := CrossEntropy(m, logits, target).1;
    SoftmaxSumsToOne(m, logits);
    SumUpdate(p, target, p[target] - 1.0);
    if |logits| >= 2 {
      SoftmaxBelowOne(m, logits, target);
    } else {
      assert p[..0] == [];
      assert Sum(p) == p[0];
    }
  }

  /** Changing one entry changes the sum by the difference. */
  lemma {:induction false} SumUpdate(s: Vec, i: nat, v: real)
    requires i < |s|
    ensures Sum(s[i := v]) == Sum(s) - s[i] + v
  {
    var n := |s| - 1;
    if i == n {
      assert s[i := v][..n] == s[..n];
    } else {
      assert s[i := v][..n] == s[..n][i := v];
      SumUpdate(s[..n], i, v);
    }
  }

  // ------------------------------------------------------ embeddings

  /** embeddingBackward on the flat gradient buffer: grad is added into row
      `index`; positions outside the buffer are dropped, as typed arrays do. */
  function AddIntoRow(g: Vec, dim: nat, index: int, delta: Vec): (r: Vec)
    requires |delta| >= dim
    ensures |r| == |g|
    ensures forall k :: 0 <= k < |g| && !(index * dim <= k < index * dim + dim) ==> r[k] == g[k]
    ensures forall c :: 0 <= c < dim && 0 <= index * dim + c < |g| ==>
      r[index * dim + c] == g[index * dim + c] + delta[c]
  {
    seq(|g|, k requires 0 <= k < |g| =>
      if index * dim <= k < index * dim + dim then g[k] + delta[k - index * dim] else g[k])
  }
}
