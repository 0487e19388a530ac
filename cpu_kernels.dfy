/**
 * The CPU kernels over Tensors. Every kernel allocates a zero output with
 * `Tensor.zeros` and fills it with accumulator loops; each is proved to
 * leave in its output exactly the function of module Kernels.
 */
module CpuKernels {
  import opened Numeric
  import opened Tensors
  import opened Kernels

  /** A fresh, gradient-free output tensor of the given shape. */
  ghost predicate FreshOutput(t: Tensor, shape: seq<nat>)
  {
    t.Valid() && t.grad == null && t.shape == shape && t.offset == 0
  }

  /** Element k of row i, read through the view. */
  lemma RowElem(t: Tensor, cols: nat, i: nat, k: nat)
    requires t.WellFormed() && (i + 1) * cols <= t.size && k < cols
    ensures 0 <= i * cols && t.offset + i * cols + k < t.buffer.Length
    ensures t.buffer[t.offset + i * cols + k] == RowOf(t.Data(), cols, i)[k]
  {
    assert (i + 1) * cols == i * cols + cols;
  }

  /** Element k of column j, read through the view. */
  lemma ColElem(t: Tensor, rows: nat, cols: nat, j: nat, k: nat)
    requires t.WellFormed() && t.size == rows * cols && j < cols && k < rows
    ensures 0 <= k * cols && t.offset + k * cols + j < t.buffer.Length
    ensures t.buffer[t.offset + k * cols + j] == ColOf(t.Data(), rows, cols, j)[k]
  {
    ColOfAt(t.Data(), rows, cols, j, k);
  }

  /** The `sum` loop of matmul: row i of a dotted with column j of b. */
  method RowColDot(a: Tensor, b: Tensor, M: nat, K: nat, N: nat, i: nat, j: nat) returns (sum: real)
    requires a.WellFormed() && b.WellFormed() && a.size == M * K && b.size == K * N
    requires i < M && j < N
    ensures (i + 1) * K <= a.size
    ensures sum == Dot(RowOf(a.Data(), K, i), ColOf(b.Data(), K, N, j))
  {
    MulMonotone(i + 1, M, K);
    ghost var ra, cb := RowOf(a.Data(), K, i), ColOf(b.Data(), K, N, j);
    sum := 0.0;
    var aOff := i * K;
    var k: nat := 0;
    while k < K
      invariant 0 <= k <= K
      invariant sum == Dot(ra[..k], cb[..k])
    {
      RowElem(a, K, i, k);
      ColElem(b, K, N, j, k);
      var u := a.buffer[a.offset + aOff + k];
      var v := b.buffer[b.offset + k * N + j];
      DotStep(ra, cb, k, u, v);
      sum := sum + u * v;
      k := k + 1;
    }
    assert ra[..K] == ra && cb[..K] == cb;
  }

  /** Row i of matmul's output: the `j` loop. */
  method MatmulRow(out: Tensor, a: Tensor, b: Tensor, M: nat, K: nat, N: nat, i: nat, ghost want: seq<real>, ghost base: nat)
    requires a.WellFormed() && b.WellFormed() && a.size == M * K && b.size == K * N && i < M
    requires want == MatMul(a.Data(), b.Data(), M, K, N)
    requires out.buffer.Length == M * N && out.buffer != a.buffer && out.buffer != b.buffer
    requires base == i * N && base + N <= |want|
    requires forall q :: 0 <= q < base ==> out.buffer[q] == want[q]
    modifies out.buffer
    ensures forall q :: 0 <= q < base + N ==> out.buffer[q] == want[q]
  {
    var j: nat := 0;
    while j < N
      invariant 0 <= j <= N
      invariant forall q :: 0 <= q < base + j ==> out.buffer[q] == want[q]
    {
      MatMulAt(a.Data(), b.Data(), M, K, N, i, j);
      var sum := RowColDot(a, b, M, K, N, i, j);
      out.buffer[i * N + j] := sum;
      j := j + 1;
    }
  }

  /** `matmul(a, b)`: [M, K] x [K, N] -> [M, N]. */
  method Matmul(a: Tensor, b: Tensor) returns (out: Tensor)
    requires a.Valid() && b.Valid() && |a.shape| >= 2 && |b.shape| >= 2
    requires a.size == a.shape[0] * a.shape[1] && b.size == a.shape[1] * b.shape[1]
    ensures fresh(out) && fresh(out.buffer) && FreshOutput(out, [a.shape[0], b.shape[1]])
    ensures out.Data() == MatMul(a.Data(), b.Data(), a.shape[0], a.shape[1], b.shape[1])
  {
    var M, K, N := a.shape[0], a.shape[1], b.shape[1];
    out := Tensor.Zeros([M, N]);
    ProductOfPair(M, N);
    ghost var want := MatMul(a.Data(), b.Data(), M, K, N);
    var i: nat := 0;
    ghost var base: nat := 0;
    while i < M
      modifies out.buffer
      invariant 0 <= i <= M && base == i * N && base <= |want|
      invariant forall q :: 0 <= q < base ==> out.buffer[q] == want[q]
    {
      MulMonotone(i + 1, M, N);
      assert (i + 1) * N == base + N;
      MatmulRow(out, a, b, M, K, N, i, want, base);
      i, base := i + 1, base + N;
    }
    assert out.Data() == out.buffer[..];
  }

  /** The `sum` loop of the dA half of matmulBackward: row i of dOut dotted with row k of b. */
  method RowRowDot(d: Tensor, b: Tensor, M: nat, K: nat, N: nat, i: nat, k: nat) returns (sum: real)
    requires d.WellFormed() && b.WellFormed() && d.size == M * N && b.size == K * N
    requires i < M && k < K
    ensures (i + 1) * N <= d.size && (k + 1) * N <= b.size
    ensures sum == Dot(RowOf(d.Data(), N, i), RowOf(b.Data(), N, k))
  {
    MulMonotone(i + 1, M, N);
    MulMonotone(k + 1, K, N);
    ghost var rd, rb := RowOf(d.Data(), N, i), RowOf(b.Data(), N, k);
    sum := 0.0;
    var j: nat := 0;
    while j < N
      invariant 0 <= j <= N
      invariant sum == Dot(rd[..j], rb[..j])
    {
      RowElem(d, N, i, j);
      RowElem(b, N, k, j);
      var u := d.buffer[d.offset + i * N + j];
      var v := b.buffer[b.offset + k * N + j];
      DotStep(rd, rb, j, u, v);
      sum := sum + u * v;
      j := j + 1;
    }
    assert rd[..N] == rd && rb[..N] == rb;
  }

  /** The `sum` loop of the dB half of matmulBackward: column k of a dotted with column j of dOut. */
  method ColColDot(a: Tensor, d: Tensor, M: nat, K: nat, N: nat, k: nat, j: nat) returns (sum: real)
    requires a.WellFormed() && d.WellFormed() && a.size == M * K && d.size == M * N
    requires k < K && j < N
    ensures sum == Dot(ColOf(a.Data(), M, K, k), ColOf(d.Data(), M, N, j))
  {
    ghost var ca, cd := ColOf(a.Data(), M, K, k), ColOf(d.Data(), M, N, j);
    sum := 0.0;
    var i: nat := 0;
    while i < M
      invariant 0 <= i <= M
      invariant sum == Dot(ca[..i], cd[..i])
    {
      ColElem(a, M, K, k, i);
      ColElem(d, M, N, j, i);
      var u := a.buffer[a.offset + i * K + k];
      var v := d.buffer[d.offset + i * N + j];
      DotStep(ca, cd, i, u, v);
      sum := sum + u * v;
      i := i + 1;
    }
    assert ca[..M] == ca && cd[..M] == cd;
  }

  /** Row i of dA in matmulBackward: the `k` loop. */
  method BackARow(dA: Tensor, dOut: Tensor, b: Tensor, M: nat, K: nat, N: nat, i: nat, ghost want: seq<real>, ghost base: nat)
    requires dOut.WellFormed() && b.WellFormed() && dOut.size == M * N && b.size == K * N && i < M
    requires want == MatMulBackA(dOut.Data(), b.Data(), M, K, N)
    requires dA.buffer.Length == M * K && dA.buffer != dOut.buffer && dA.buffer != b.buffer
    requires base == i * K && base + K <= |want|
    requires forall q :: 0 <= q < base ==> dA.buffer[q] == want[q]
    modifies dA.buffer
    ensures forall q :: 0 <= q < base + K ==> dA.buffer[q] == want[q]
  {
    var k: nat := 0;
    while k < K
      invariant 0 <= k <= K
      invariant forall q :: 0 <= q < base + k ==> dA.buffer[q] == want[q]
    {
      MatMulBackAAt(dOut.Data(), b.Data(), M, K, N, i, k);
      var sum := RowRowDot(dOut, b, M, K, N, i, k);
      dA.buffer[i * K + k] := sum;
      k := k + 1;
    }
  }

  /** The first half of matmulBackward: dA = dOut B^T, [M, K]. */
  method MatmulBackwardA(dOut: Tensor, b: Tensor, M: nat, K: nat, N: nat) returns (dA: Tensor)
    requires dOut.Valid() && b.Valid() && dOut.size == M * N && b.size == K * N
    ensures fresh(dA) && fresh(dA.buffer) && FreshOutput(dA, [M, K])
    ensures dA.Data() == MatMulBackA(dOut.Data(), b.Data(), M, K, N)
  {
    dA := Tensor.Zeros([M, K]);
    ProductOfPair(M, K);
    ghost var want := MatMulBackA(dOut.Data(), b.Data(), M, K, N);
    var i: nat := 0;
    ghost var base: nat := 0;
    while i < M
      modifies dA.buffer
      invariant 0 <= i <= M && base == i * K && base <= |want|
      invariant forall q :: 0 <= q < base ==> dA.buffer[q] == want[q]
    {
      MulMonotone(i + 1, M, K);
      assert (i + 1) * K == base + K;
      BackARow(dA, dOut, b, M, K, N, i, want, base);
      i, base := i + 1, base + K;
    }
    assert dA.Data() == dA.buffer[..];
  }

  /** Row k of dB in matmulBackward: the `j` loop. */
  method BackBRow(dB: Tensor, dOut: Tensor, a: Tensor, M: nat, K: nat, N: nat, k: nat, ghost want: seq<real>, ghost base: nat)
    requires dOut.WellFormed() && a.WellFormed() && dOut.size == M * N && a.size == M * K && k < K
    requires want == MatMulBackB(a.Data(), dOut.Data(), M, K, N)
    requires dB.buffer.Length == K * N && dB.buffer != dOut.buffer && dB.buffer != a.buffer
    requires base == k * N && base + N <= |want|
    requires forall q :: 0 <= q < base ==> dB.buffer[q] == want[q]
    modifies dB.buffer
    ensures forall q :: 0 <= q < base + N ==> dB.buffer[q] == want[q]
  {
    var j: nat := 0;
    while j < N
      invariant 0 <= j <= N
      invariant forall q :: 0 <= q < base + j ==> dB.buffer[q] == want[q]
    {
      MatMulBackBAt(a.Data(), dOut.Data(), M, K, N, k, j);
      var sum := ColColDot(a, dOut, M, K, N, k, j);
      dB.buffer[k * N + j] := sum;
      j := j + 1;
    }
  }

  /** The second half of matmulBackward: dB = A^T dOut, [K, N]. */
  method MatmulBackwardB(dOut: Tensor, a: Tensor, M: nat, K: nat, N: nat) returns (dB: Tensor)
    requires dOut.Valid() && a.Valid() && dOut.size == M * N && a.size == M * K
    ensures fresh(dB) && fresh(dB.buffer) && FreshOutput(dB, [K, N])
    ensures dB.Data() == MatMulBackB(a.Data(), dOut.Data(), M, K, N)
  {
    dB := Tensor.Zeros([K, N]);
    ProductOfPair(K, N);
    ghost var want := MatMulBackB(a.Data(), dOut.Data(), M, K, N);
    var k: nat := 0;
    ghost var base: nat := 0;
    while k < K
      modifies dB.buffer
      invariant 0 <= k <= K && base == k * N && base <= |want|
      invariant forall q :: 0 <= q < base ==> dB.buffer[q] == want[q]
    {
      MulMonotone(k + 1, K, N);
      assert (k + 1) * N == base + N;
      BackBRow(dB, dOut, a, M, K, N, k, want, base);
      k, base := k + 1, base + N;
    }
    assert dB.Data() == dB.buffer[..];
  }

  /** `matmulBackward(dOut, a, b)`: dA = dOut B^T [M, K] and dB = A^T dOut [K, N]. */
  method MatmulBackward(dOut: Tensor, a: Tensor, b: Tensor) returns (dA: Tensor, dB: Tensor)
    requires dOut.Valid() && a.Valid() && b.Valid() && |a.shape| >= 2 && |b.shape| >= 2
    requires a.size == a.shape[0] * a.shape[1] && b.size == a.shape[1] * b.shape[1]
    requires dOut.size == a.shape[0] * b.shape[1]
    ensures fresh(dA) && fresh(dA.buffer) && FreshOutput(dA, [a.shape[0], a.shape[1]])
    ensures fresh(dB) && fresh(dB.buffer) && FreshOutput(dB, [a.shape[1], b.shape[1]])
    ensures dA.Data() == MatMulBackA(dOut.Data(), b.Data(), a.shape[0], a.shape[1], b.shape[1])
    ensures dB.Data() == MatMulBackB(a.Data(), dOut.Data(), a.shape[0], a.shape[1], b.shape[1])
  {
    var M, K, N := a.shape[0], a.shape[1], b.shape[1];
    dA := MatmulBackwardA(dOut, b, M, K, N);
    dB := MatmulBackwardB(dOut, a, M, K, N);
  }

  /** The `sum` loop of linear: row i of w dotted with x. */
  method RowVecDot(w: Tensor, x: Tensor, outDim: nat, inDim: nat, i: nat) returns (sum: real)
    requires w.WellFormed() && x.WellFormed() && w.size == outDim * inDim && x.size == inDim
    requires i < outDim
    ensures (i + 1) * inDim <= w.size
    ensures sum == Dot(RowOf(w.Data(), inDim, i), x.Data())
  {
    MulMonotone(i + 1, outDim, inDim);
    ghost var rw, X := RowOf(w.Data(), inDim, i), x.Data();
    sum := 0.0;
    var wOff := i * inDim;
    var j: nat := 0;
    while j < inDim
      invariant 0 <= j <= inDim
      invariant sum == Dot(rw[..j], X[..j])
    {
      RowElem(w, inDim, i, j);
      var u := w.buffer[w.offset + wOff + j];
      var v := x.buffer[x.offset + j];
      DotStep(rw, X, j, u, v);
      sum := sum + u * v;
      j := j + 1;
    }
    assert rw[..inDim] == rw && X[..inDim] == X;
  }

  /** `linear(x, w)`: x [inDim] through w [outDim, inDim] -> [outDim]. */
  method LinearOp(x: Tensor, w: Tensor) returns (out: Tensor)
    requires x.Valid() && w.Valid() && |w.shape| >= 2
    requires w.size == w.shape[0] * w.shape[1] && x.size == w.shape[1]
    ensures fresh(out) && fresh(out.buffer) && FreshOutput(out, [w.shape[0]])
    ensures out.Data() == Linear(w.Data(), x.Data(), w.shape[0], w.shape[1])
  {
    var outDim, inDim := w.shape[0], w.shape[1];
    out := Tensor.Zeros([outDim]);
    ProductOfPair(outDim, inDim);
    ghost var want := Linear(w.Data(), x.Data(), outDim, inDim);
    var i: nat := 0;
    while i < outDim
      modifies out.buffer
      invariant 0 <= i <= outDim
      invariant forall q :: 0 <= q < i ==> out.buffer[q] == want[q]
    {
      var sum := RowVecDot(w, x, outDim, inDim, i);
      out.buffer[i] := sum;
      i := i + 1;
    }
    assert out.Data() == out.buffer[..];
  }

  /** The `sum` loop of the dX half of linearBackward: column j of w dotted with dOut. */
  method ColVecDot(w: Tensor, d: Tensor, outDim: nat, inDim: nat, j: nat) returns (sum: real)
    requires w.WellFormed() && d.WellFormed() && w.size == outDim * inDim && d.size == outDim
    requires j < inDim
    ensures sum == Dot(ColOf(w.Data(), outDim, inDim, j), d.Data())
  {
    ghost var cw, D := ColOf(w.Data(), outDim, inDim, j), d.Data();
    sum := 0.0;
    var i: nat := 0;
    while i < outDim
      invariant 0 <= i <= outDim
      invariant sum == Dot(cw[..i], D[..i])
    {
      ColElem(w, outDim, inDim, j, i);
      var u := w.buffer[w.offset + i * inDim + j];
      var v := d.buffer[d.offset + i];
      DotStep(cw, D, i, u, v);
      sum := sum + u * v;
      i := i + 1;
    }
    assert cw[..outDim] == cw && D[..outDim] == D;
  }

  /** Row i of dW in linearBackward: the `j` loop. */
  method OuterRow(dW: Tensor, dOut: Tensor, x: Tensor, i: nat, ghost want: seq<real>, ghost base: nat)
    requires dOut.WellFormed() && x.WellFormed() && i < dOut.size
    requires want == Outer(dOut.Data(), x.Data())
    requires dW.buffer.Length == dOut.size * x.size && dW.buffer != dOut.buffer && dW.buffer != x.buffer
    requires base == i * x.size && base + x.size <= |want|
    requires forall q :: 0 <= q < base ==> dW.buffer[q] == want[q]
    modifies dW.buffer
    ensures forall q :: 0 <= q < base + x.size ==> dW.buffer[q] == want[q]
  {
    var inDim := x.size;
    var j: nat := 0;
    while j < inDim
      invariant 0 <= j <= inDim
      invariant forall q :: 0 <= q < base + j ==> dW.buffer[q] == want[q]
    {
      OuterAt(dOut.Data(), x.Data(), i, j);
      dW.buffer[i * inDim + j] := dOut.buffer[dOut.offset + i] * x.buffer[x.offset + j];
      j := j + 1;
    }
  }

  /** The dW half of linearBackward: dW[i * inDim + j] = dOut[i] * x[j]. */
  method OuterOp(dOut: Tensor, x: Tensor) returns (dW: Tensor)
    requires dOut.Valid() && x.Valid()
    ensures fresh(dW) && fresh(dW.buffer) && FreshOutput(dW, [dOut.size, x.size])
    ensures dW.Data() == Outer(dOut.Data(), x.Data())
  {
    var outDim, inDim := dOut.size, x.size;
    dW := Tensor.Zeros([outDim, inDim]);
    ProductOfPair(outDim, inDim);
    ghost var want := Outer(dOut.Data(), x.Data());
    var i: nat := 0;
    ghost var base: nat := 0;
    while i < outDim
      modifies dW.buffer
      invariant 0 <= i <= outDim && base == i * inDim && base <= |want|
      invariant forall q :: 0 <= q < base ==> dW.buffer[q] == want[q]
    {
      MulMonotone(i + 1, outDim, inDim);
      assert (i + 1) * inDim == base + inDim;
      OuterRow(dW, dOut, x, i, want, base);
      i, base := i + 1, base + inDim;
    }
    assert dW.Data() == dW.buffer[..];
  }

  /** `linearBackward(dOut, x, w)`: dX = w^T dOut and dW = dOut x^T. */
  method LinearBackwardOp(dOut: Tensor, x: Tensor, w: Tensor) returns (dX: Tensor, dW: Tensor)
    requires dOut.Valid() && x.Valid() && w.Valid() && |w.shape| >= 2
    requires w.size == w.shape[0] * w.shape[1] && x.size == w.shape[1] && dOut.size == w.shape[0]
    ensures fresh(dX) && fresh(dX.buffer) && FreshOutput(dX, [w.shape[1]])
    ensures fresh(dW) && fresh(dW.buffer) && FreshOutput(dW, [w.shape[0], w.shape[1]])
    ensures dX.Data() == LinearBackX(w.Data(), dOut.Data(), w.shape[0], w.shape[1])
    ensures dW.Data() == Outer(dOut.Data(), x.Data())
  {
    var outDim, inDim := w.shape[0], w.shape[1];
    dX := Tensor.Zeros([inDim]);
    ProductOfPair(outDim, inDim);
    ghost var wantX := LinearBackX(w.Data(), dOut.Data(), outDim, inDim);
    var j: nat := 0;
    while j < inDim
      modifies dX.buffer
      invariant 0 <= j <= inDim
      invariant forall q :: 0 <= q < j ==> dX.buffer[q] == wantX[q]
    {
      var sum := ColVecDot(w, dOut, outDim, inDim, j);
      dX.buffer[j] := sum;
      j := j + 1;
    }
    assert dX.Data() == dX.buffer[..];
    dW := OuterOp(dOut, x);
  }

  /** The first loop of softmax: the running maximum. maxVal starts at
      -Infinity, which `seen` stands for while it is false. */
  method RunningMax(x: Tensor) returns (maxVal: real)
    requires x.WellFormed() && x.size > 0
    ensures maxVal == Max(x.Data())
  {
    ghost var X := x.Data();
    maxVal := 0.0;
    var seen := false;
    var i: nat := 0;
    while i < x.size
      invariant 0 <= i <= x.size
      invariant seen <==> i > 0
      invariant i > 0 ==> maxVal == Max(X[..i])
    {
      MaxStep(X, i);
      if !seen || x.buffer[x.offset + i] > maxVal {
        maxVal := x.buffer[x.offset + i];
      }
      seen := true;
      i := i + 1;
    }
    assert X[..x.size] == X;
  }

  /** The second loop of softmax: the shifted exponentials and their sum. */
  method ExpsInto(m: MathLib, x: Tensor, out: array<real>, maxVal: real) returns (sumExp: real)
    requires Lawful(m) && x.WellFormed() && out.Length == x.size && out != x.buffer
    modifies out
    ensures out[..] == Exps(m, x.Data(), maxVal) && sumExp == Sum(out[..])
  {
    ghost var E := Exps(m, x.Data(), maxVal);
    sumExp := 0.0;
    var i: nat := 0;
    while i < x.size
      invariant 0 <= i <= x.size
      invariant sumExp == Sum(E[..i])
      invariant forall q :: 0 <= q < i ==> out[q] == E[q]
    {
      out[i] := m.exp(x.buffer[x.offset + i] - maxVal);
      SumPrefixStep(E, i);
      sumExp := sumExp + out[i];
      i := i + 1;
    }
    assert E[..x.size] == E;
    assert out[..] == E;
  }

  /** The third loop of softmax: every entry divided by the sum. */
  method DivideAll(out: array<real>, s: real)
    requires s != 0.0
    modifies out
    ensures forall q :: 0 <= q < out.Length ==> out[q] == old(out[q]) / s
  {
    var i: nat := 0;
    while i < out.Length
      invariant 0 <= i <= out.Length
      invariant forall q :: 0 <= q < i ==> out[q] == old(out[q]) / s
      invariant forall q :: i <= q < out.Length ==> out[q] == old(out[q])
    {
      out[i] := out[i] / s;
      i := i + 1;
    }
  }

  /** `softmax(x)`: the running maximum, the exponentials and their running
      sum, then one division pass. */
  method SoftmaxOp(m: MathLib, x: Tensor) returns (out: Tensor)
    requires Lawful(m) && x.Valid()
    ensures fresh(out) && fresh(out.buffer) && FreshOutput(out, [x.size])
    ensures out.Data() == Softmax(m, x.Data())
  {
    var n := x.size;
    out := Tensor.Zeros([n]);
    ProductOfPair(0, n);
    if n == 0 {
      return;
    }
    var maxVal := RunningMax(x);
    var sumExp := ExpsInto(m, x, out.buffer, maxVal);
    SumPositive(out.buffer[..]);
    DivideAll(out.buffer, sumExp);
    assert out.Data() == out.buffer[..];
  }

  /** The second loop of softmaxBackward: out[i] = s[i] * (dOut[i] - dot). */
  method GateInto(dOut: Tensor, s: Tensor, dot: real, out: array<real>)
    requires dOut.WellFormed() && s.WellFormed() && dOut.size == s.size && out.Length == s.size
    requires out != s.buffer && out != dOut.buffer
    modifies out
    ensures out[..] == Gated(dOut.Data(), s.Data(), dot)
  {
    ghost var want := Gated(dOut.Data(), s.Data(), dot);
    var i: nat := 0;
    while i < out.Length
      invariant 0 <= i <= out.Length
      invariant forall q :: 0 <= q < i ==> out[q] == want[q]
    {
      out[i] := s.buffer[s.offset + i] * (dOut.buffer[dOut.offset + i] - dot);
      i := i + 1;
    }
    assert out[..] == want;
  }

  /** `softmaxBackward(dOut, softmaxOut)`: the dot product, then
      dInput[i] = s[i] * (dOut[i] - dot). */
  method SoftmaxBackwardOp(dOut: Tensor, s: Tensor) returns (dInput: Tensor)
    requires dOut.Valid() && s.Valid() && s.size == dOut.size
    ensures fresh(dInput) && fresh(dInput.buffer) && FreshOutput(dInput, [dOut.size])
    ensures dInput.Data() == SoftmaxBackward(dOut.Data(), s.Data())
  {
    var dot := DotOf(dOut, s);
    dInput := Tensor.Zeros([dOut.size]);
    ProductOfPair(0, dOut.size);
    GateInto(dOut, s, dot, dInput.buffer);
    assert dInput.Data() == dInput.buffer[..];
  }

  /** `rmsNorm(x, eps)`: the sum of squares, the rms, then each entry divided
      by it. */
  method RmsNormOp(m: MathLib, x: Tensor, eps: real) returns (out: Tensor, rms: real)
    requires Lawful(m) && x.Valid() && x.size > 0 && eps > 0.0
    ensures fresh(out) && fresh(out.buffer) && FreshOutput(out, [x.size])
    ensures rms == Rms(m, x.Data(), eps)
    ensures out.Data() == RmsNorm(m, x.Data(), eps)
  {
    var n := x.size;
    ghost var X := x.Data();
    var sumSq := 0.0;
    var i: nat := 0;
    while i < n
      invariant 0 <= i <= n
      invariant sumSq == Dot(X[..i], X[..i])
    {
      var u := x.buffer[x.offset + i];
      DotStep(X, X, i, u, u);
      sumSq := sumSq + u * u;
      i := i + 1;
    }
    assert X[..n] == X;
    rms := m.sqrt(sumSq / (n as real) + eps);
    assert rms == Rms(m, X, eps);
    out := Tensor.Zeros([n]);
    ProductOfPair(0, n);
    ghost var want := RmsNorm(m, X, eps);
    i := 0;
    while i < n
      modifies out.buffer
      invariant 0 <= i <= n
      invariant forall q :: 0 <= q < i ==> out.buffer[q] == want[q]
    {
      out.buffer[i] := x.buffer[x.offset + i] / rms;
      i := i + 1;
    }
    assert out.Data() == out.buffer[..];
  }

  /** The dot product of two views of equal size, accumulated left to right. */
  method DotOf(x: Tensor, d: Tensor) returns (dot: real)
    requires x.WellFormed() && d.WellFormed() && x.size == d.size
    ensures dot == Dot(x.Data(), d.Data())
  {
    ghost var X, D := x.Data(), d.Data();
    dot := 0.0;
    var i: nat := 0;
    while i < x.size
      invariant 0 <= i <= x.size
      invariant dot == Dot(X[..i], D[..i])
    {
      var u := x.buffer[x.offset + i];
      var v := d.buffer[d.offset + i];
      DotStep(X, D, i, u, v);
      dot := dot + u * v;
      i := i + 1;
    }
    assert D[..i] == D && X[..i] == X;
  }

  /** `rmsNormBackward(dOut, input, rms)`: the dot product of input and dOut,
      then dInput[i] = dOut[i] / rms - input[i] * dot / (n * rms^3). */
  method RmsNormBackwardOp(dOut: Tensor, input: Tensor, rms: real) returns (dInput: Tensor)
    requires dOut.Valid() && input.Valid() && dOut.size == input.size && rms > 0.0
    ensures fresh(dInput) && fresh(dInput.buffer) && FreshOutput(dInput, [input.size])
    ensures dInput.Data() == RmsNormBackward(dOut.Data(), input.Data(), rms)
  {
    var dotXdOut := DotOf(input, dOut);
    dInput := RmsBackOp(dOut, input, rms, dotXdOut);
  }

  /** The output loop of rmsNormBackward, for a given dot product. */
  method RmsBackOp(dOut: Tensor, input: Tensor, rms: real, dot: real) returns (dInput: Tensor)
    requires dOut.Valid() && input.Valid() && dOut.size == input.size && rms > 0.0
    ensures fresh(dInput) && fresh(dInput.buffer) && FreshOutput(dInput, [input.size])
    ensures dInput.Data() == RmsBack(dOut.Data(), input.Data(), rms, dot)
  {
    var n := input.size;
    dInput := Tensor.Zeros([n]);
    ProductOfPair(0, n);
    if n == 0 {
      assert dInput.Data() == [];
      return;
    }
    ghost var D, X := dOut.Data(), input.Data();
    ghost var want := RmsBack(D, X, rms, dot);
    var scale := RmsCubeScale(n, rms);
    var i: nat := 0;
    while i < n
      modifies dInput.buffer
      invariant 0 <= i <= n
      invariant forall q :: 0 <= q < i ==> dInput.buffer[q] == want[q]
    {
      assert dOut.buffer[dOut.offset + i] == D[i] && input.buffer[input.offset + i] == X[i];
      dInput.buffer[i] := dOut.buffer[dOut.offset + i] / rms - input.buffer[input.offset + i] * dot / scale;
      i := i + 1;
    }
    assert dInput.Data() == dInput.buffer[..];
  }

  /** `relu(x)`: max(0, x[i]) into a zero tensor of x's shape. */
  method ReluOp(x: Tensor) returns (out: Tensor)
    requires x.Valid() && x.size == Product(x.shape)
    ensures fresh(out) && fresh(out.buffer) && FreshOutput(out, x.shape)
    ensures out.Data() == Relu(x.Data())
  {
    out := Tensor.Zeros(x.shape);
    ghost var want := Relu(x.Data());
    var i: nat := 0;
    while i < x.size
      modifies out.buffer
      invariant 0 <= i <= x.size
      invariant forall q :: 0 <= q < i ==> out.buffer[q] == want[q]
    {
      out.buffer[i] := MaxReal(0.0, x.buffer[x.offset + i]);
      i := i + 1;
    }
    assert out.Data() == out.buffer[..];
  }

  /** `reluBackward(dOut, input)`: dOut[i] where input[i] > 0, else 0. */
  method ReluBackwardOp(dOut: Tensor, input: Tensor) returns (dInput: Tensor)
    requires dOut.Valid() && input.Valid() && input.size == Product(input.shape)
    requires dOut.size == input.size
    ensures fresh(dInput) && fresh(dInput.buffer) && FreshOutput(dInput, input.shape)
    ensures dInput.Data() == ReluBackward(dOut.Data(), input.Data())
  {
    dInput := Tensor.Zeros(input.shape);
    ghost var want := ReluBackward(dOut.Data(), input.Data());
    var i: nat := 0;
    while i < input.size
      modifies dInput.buffer
      invariant 0 <= i <= input.size
      invariant forall q :: 0 <= q < i ==> dInput.buffer[q] == want[q]
    {
      dInput.buffer[i] := if input.buffer[input.offset + i] > 0.0 then dOut.buffer[dOut.offset + i] else 0.0;
      i := i + 1;
    }
    assert dInput.Data() == dInput.buffer[..];
  }

  /** `add(a, b)`: the element-wise sum, in a's shape. */
  method AddOp(a: Tensor, b: Tensor) returns (out: Tensor)
    requires a.Valid() && b.Valid() && a.size == Product(a.shape) && b.size == a.size
    ensures fresh(out) && fresh(out.buffer) && FreshOutput(out, a.shape)
    ensures out.Data() == VecAdd(a.Data(), b.Data())
  {
    out := Tensor.Zeros(a.shape);
    ghost var want := VecAdd(a.Data(), b.Data());
    var i: nat := 0;
    while i < a.size
      modifies out.buffer
      invariant 0 <= i <= a.size
      invariant forall q :: 0 <= q < i ==> out.buffer[q] == want[q]
    {
      out.buffer[i] := a.buffer[a.offset + i] + b.buffer[b.offset + i];
      i := i + 1;
    }
    assert out.Data() == out.buffer[..];
  }

  /** `scale(x, s)`: every entry times s, in x's shape. */
  method ScaleOp(x: Tensor, c: real) returns (out: Tensor)
    requires x.Valid() && x.size == Product(x.shape)
    ensures fresh(out) && fresh(out.buffer) && FreshOutput(out, x.shape)
    ensures out.Data() == VecScale(x.Data(), c)
  {
    out := Tensor.Zeros(x.shape);
    ghost var want := VecScale(x.Data(), c);
    var i: nat := 0;
    while i < x.size
      modifies out.buffer
      invariant 0 <= i <= x.size
      invariant forall q :: 0 <= q < i ==> out.buffer[q] == want[q]
    {
      out.buffer[i] := x.buffer[x.offset + i] * c;
      i := i + 1;
    }
    assert out.Data() == out.buffer[..];
  }

  /** `crossEntropyLoss(logits, target)`: softmax, the guarded negative log of
      the target's probability, and a copy of the probabilities with 1 taken
      off at the target. */
  method CrossEntropyLossOp(m: MathLib, logits: Tensor, target: nat) returns (loss: real, dLogits: Tensor)
    requires Lawful(m) && logits.Valid() && target < logits.size
    ensures fresh(dLogits) && fresh(dLogits.buffer) && FreshOutput(dLogits, [logits.size])
    ensures (loss, dLogits.Data()) == CrossEntropy(m, logits.Data(), target)
  {
    var probs := SoftmaxOp(m, logits);
    loss := -m.log(probs.buffer[target] + LogGuard);
    var copy := new real[probs.size](k requires 0 <= k < probs.size reads probs.buffer => probs.buffer[k]);
    dLogits := new Tensor(copy, 0, probs.size, probs.shape, false);
    assert copy[..] == probs.Data();
    copy[target] := copy[target] - 1.0;
    assert dLogits.Data() == copy[..];
  }

  /** `embeddingLookup(table, index)`: a fresh copy of row `index`. */
  method EmbeddingLookup(table: Tensor, index: nat) returns (out: Tensor)
    requires table.Valid() && |table.shape| >= 2 && (index + 1) * table.shape[1] <= table.size
    ensures fresh(out) && fresh(out.buffer) && FreshOutput(out, [table.shape[1]])
    ensures out.Data() == RowOf(table.Data(), table.shape[1], index)
  {
    var dim := table.shape[1];
    var offset := index * dim;
    out := Tensor.Zeros([dim]);
    ProductOfPair(0, dim);
    ghost var want := RowOf(table.Data(), dim, index);
    var i: nat := 0;
    while i < dim
      modifies out.buffer
      invariant 0 <= i <= dim
      invariant forall q :: 0 <= q < i ==> out.buffer[q] == want[q]
    {
      RowElem(table, dim, index, i);
      out.buffer[i] := table.buffer[table.offset + offset + i];
      i := i + 1;
    }
    assert out.Data() == out.buffer[..];
  }

  /** A vector equal, entry by entry, to g with delta added into row
      `index` (where that row lies inside g) is AddIntoRow. */
  lemma RowAdded(g: Vec, dim: nat, index: int, delta: Vec, r: Vec)
    requires |delta| >= dim && |r| == |g|
    requires forall k :: 0 <= k < |g| ==>
      r[k] == (if index * dim <= k < index * dim + dim then g[k] + delta[k - index * dim] else g[k])
    ensures r == AddIntoRow(g, dim, index, delta)
  {
  }

  /** `embeddingBackward(grad, table, index)`: with a gradient present, adds
      grad into row `index` of table.grad; writes that fall outside the
      gradient's view are dropped, as typed arrays drop them. */
  method EmbeddingBackward(grad: Tensor, table: Tensor, index: int)
    requires grad.Valid() && table.Valid() && |table.shape| >= 2 && grad.size >= table.shape[1]
    requires table.grad != null ==> table.grad.buffer != grad.buffer
    modifies if table.grad == null then {} else {table.grad.buffer}
    ensures table.grad != null ==>
      table.GradData() == AddIntoRow(old(table.GradData()), table.shape[1], index, grad.Data())
    ensures table.grad != null ==> forall k ::
      (0 <= k < table.grad.buffer.Length && !(table.grad.offset <= k < table.grad.offset + table.grad.size)) ==>
      table.grad.buffer[k] == old(table.grad.buffer[k])
  {
    var dim := table.shape[1];
    var offset := index * dim;
    if table.grad == null {
      return;
    }
    var g := table.grad;
    ghost var g0 := g.Data();
    ghost var delta := grad.Data();
    var i: nat := 0;
    while i < dim
      invariant 0 <= i <= dim
      invariant forall k :: 0 <= k < g.size ==>
        g.buffer[g.offset + k] == (if offset <= k < offset + i then g0[k] + delta[k - offset] else g0[k])
      invariant forall k :: 0 <= k < g.buffer.Length && !(g.offset <= k < g.offset + g.size) ==>
        g.buffer[k] == old(g.buffer[k])
    {
      if 0 <= offset + i < g.size {
        g.buffer[g.offset + offset + i] := g.buffer[g.offset + offset + i] + grad.buffer[grad.offset + i];
      }
      i := i + 1;
    }
    assert forall k :: 0 <= k < g.size ==> g.Data()[k] == g.buffer[g.offset + k];
    RowAdded(g0, dim, index, delta, g.Data());
  }
}
