/**
 * Real-valued vectors and flat row-major matrices, shared by the training engine
 * and the inference tracer. Float32 storage is modelled by `real`; the host's
 * Math.exp, Math.sqrt and Math.log are parameters (see MathLib).
 */
module Numeric {

  type Vec = seq<real>

  /** Math.exp, Math.sqrt and Math.log of the host. Nothing about them is assumed
      except what `Lawful` states. */
  datatype MathLib = MathLib(exp: real -> real, sqrt: real -> real, log: real -> real)

  /** The positivity laws the engine relies on. */
  ghost predicate Lawful(m: MathLib)
  {
    && (forall x :: m.exp(x) > 0.0)
    && (forall x :: 0.0 <= x ==> 0.0 <= m.sqrt(x))
    && (forall x :: 0.0 < x ==> 0.0 < m.sqrt(x))
  }

  function MinInt(a: int, b: int): int { if a <= b then a else b }

  function MaxReal(a: real, b: real): real { if a >= b then a else b }

  function Abs(x: real): real { if x < 0.0 then -x else x }

  // ---------------------------------------------------------------- sums

  /** Left-to-right sum, the order of a `sum += s[i]` loop. */
  function Sum(s: seq<real>): real
  {
    if |s| == 0 then 0.0 else Sum(s[..|s| - 1]) + s[|s| - 1]
  }

  /** Dot product accumulated left to right. */
  function Dot(u: Vec, v: Vec): real
    requires |u| == |v|
  {
    if |u| == 0 then 0.0 else Dot(u[..|u| - 1], v[..|v| - 1]) + u[|u| - 1] * v[|v| - 1]
  }

  /** Largest element (the running maximum of a `if (x > max) max = x` loop). */
  function Max(s: seq<real>): (r: real)
    requires |s| > 0
    ensures r in s
    ensures forall i :: 0 <= i < |s| ==> s[i] <= r
  {
    if |s| == 1 then s[0]
    else MaxReal(Max(s[..|s| - 1]), s[|s| - 1])
  }

  /** The running maximum over one more element. */
  lemma MaxStep(s: seq<real>, i: nat)
    requires i < |s|
    ensures i == 0 ==> Max(s[..i + 1]) == s[0]
    ensures i > 0 ==> Max(s[..i + 1]) == MaxReal(Max(s[..i]), s[i])
  {
    assert s[..i + 1][..i] == s[..i];
  }

  function Zeros(n: nat): (r: Vec)
    ensures |r| == n && forall i :: 0 <= i < n ==> r[i] == 0.0
  {
    seq(n, _ => 0.0)
  }

  function VecAdd(a: Vec, b: Vec): (r: Vec)
    requires |a| == |b|
    ensures |r| == |a| && forall i :: 0 <= i < |a| ==> r[i] == a[i] + b[i]
  {
    seq(|a|, i requires 0 <= i < |a| => a[i] + b[i])
  }

  function VecScale(a: Vec, c: real): (r: Vec)
    ensures |r| == |a| && forall i :: 0 <= i < |a| ==> r[i] == a[i] * c
  {
    seq(|a|, i requires 0 <= i < |a| => a[i] * c)
  }

  lemma {:induction false} SumPrefixStep(s: seq<real>, k: nat)
    requires k < |s|
    ensures Sum(s[..k + 1]) == Sum(s[..k]) + s[k]
  {
    assert s[..k + 1][..k] == s[..k];
  }

  lemma {:induction false} DotPrefixStep(u: Vec, v: Vec, k: nat)
    requires |u| == |v| && k < |u|
    ensures Dot(u[..k + 1], v[..k + 1]) == Dot(u[..k], v[..k]) + u[k] * v[k]
  {
    assert u[..k + 1][..k] == u[..k];
    assert v[..k + 1][..k] == v[..k];
  }

  /** DotPrefixStep with the new pair given by value, as an accumulator loop reads it. */
  lemma DotStep(u: Vec, v: Vec, k: nat, x: real, y: real)
    requires |u| == |v| && k < |u| && x == u[k] && y == v[k]
    ensures Dot(u[..k + 1], v[..k + 1]) == Dot(u[..k], v[..k]) + x * y
  {
    DotPrefixStep(u, v, k);
  }

  lemma {:induction false} SumAppend(a: seq<real>, b: seq<real>)
    ensures Sum(a + b) == Sum(a) + Sum(b)
  {
    if |b| > 0 {
      assert (a + b)[..|a + b| - 1] == a + b[..|b| - 1];
      SumAppend(a, b[..|b| - 1]);
    } else {
      assert a + b == a;
    }
  }

  lemma {:induction false} SumScale(s: seq<real>, c: real)
    ensures Sum(VecScale(s, c)) == Sum(s) * c
  {
    if |s| > 0 {
      var n := |s| - 1;
      forall i | 0 <= i < n ensures VecScale(s, c)[..n][i] == VecScale(s[..n], c)[i] {
        assert s[..n][i] == s[i];
      }
      assert VecScale(s, c)[..n] == VecScale(s[..n], c);
      SumScale(s[..|s| - 1], c);
    }
  }

  lemma {:induction false} SumVecAdd(a: Vec, b: Vec)
    requires |a| == |b|
    ensures Sum(VecAdd(a, b)) == Sum(a) + Sum(b)
  {
    if |a| > 0 {
      assert VecAdd(a, b)[..|a| - 1] == VecAdd(a[..|a| - 1], b[..|b| - 1]);
      SumVecAdd(a[..|a| - 1], b[..|b| - 1]);
    }
  }

  lemma {:induction false} SumZeros(n: nat)
    ensures Sum(Zeros(n)) == 0.0
  {
    if n > 0 {
      assert Zeros(n)[..n - 1] == Zeros(n - 1);
      SumZeros(n - 1);
    }
  }

  lemma {:induction false} SumPositive(s: seq<real>)
    requires |s| > 0 && forall i :: 0 <= i < |s| ==> s[i] > 0.0
    ensures Sum(s) > 0.0
  {
    if |s| > 1 {
      SumPositive(s[..|s| - 1]);
    }
  }

  lemma {:induction false} SumNonNegative(s: seq<real>)
    requires forall i :: 0 <= i < |s| ==> s[i] >= 0.0
    ensures Sum(s) >= 0.0
  {
    if |s| > 0 {
      SumNonNegative(s[..|s| - 1]);
    }
  }

  lemma {:induction false} DotSelfNonNegative(u: Vec)
    ensures Dot(u, u) >= 0.0
  {
    if |u| > 0 {
      DotSelfNonNegative(u[..|u| - 1]);
    }
  }

  lemma {:induction false} DotLinearLeft(a: Vec, b: Vec, v: Vec)
    requires |a| == |b| == |v|
    ensures Dot(VecAdd(a, b), v) == Dot(a, v) + Dot(b, v)
  {
    if |a| > 0 {
      var n := |a| - 1;
      assert VecAdd(a, b)[..n] == VecAdd(a[..n], b[..n]);
      DotLinearLeft(a[..n], b[..n], v[..n]);
    }
  }

  lemma {:induction false} DotScaleLeft(a: Vec, c: real, v: Vec)
    requires |a| == |v|
    ensures Dot(VecScale(a, c), v) == c * Dot(a, v)
  {
    if |a| > 0 {
      var n := |a| - 1;
      forall i | 0 <= i < n ensures VecScale(a, c)[..n][i] == VecScale(a[..n], c)[i] {
        assert a[..n][i] == a[i];
      }
      assert VecScale(a, c)[..n] == VecScale(a[..n], c);
      DotScaleLeft(a[..n], c, v[..n]);
    }
  }

  lemma {:induction false} DotSymmetric(u: Vec, v: Vec)
    requires |u| == |v|
    ensures Dot(u, v) == Dot(v, u)
  {
    if |u| > 0 {
      DotSymmetric(u[..|u| - 1], v[..|v| - 1]);
    }
  }

  // ------------------------------------------------------- index arithmetic

  lemma MulMonotone(a: nat, b: nat, n: nat)
    requires a <= b
    ensures a * n <= b * n
  {
    assert b * n == a * n + (b - a) * n;
  }

  /** Row i, column j of a rows x cols row-major matrix lies inside it. */
  lemma RowColInRange(i: nat, j: nat, rows: nat, cols: nat)
    requires i < rows && j < cols
    ensures i * cols + j < rows * cols
    ensures (i + 1) * cols <= rows * cols
  {
    MulMonotone(i + 1, rows, cols);
  }

  /** A flat offset i*n + j with j < n decodes back to (i, j). */
  lemma DivModRowCol(i: nat, j: nat, n: nat)
    requires j < n
    ensures (i * n + j) / n == i && (i * n + j) % n == j
  {
    var k := i * n + j;
    var q, r := k / n, k % n;
    assert k == q * n + r;
    if q > i {
      MulMonotone(i + 1, q, n);
      assert false;
    } else if q < i {
      MulMonotone(q + 1, i, n);
      assert false;
    }
  }

  /** The row of a flat offset below rows*cols is below rows. */
  lemma DivBound(k: nat, rows: nat, cols: nat)
    requires k < rows * cols
    ensures cols > 0 && k / cols < rows && k % cols < cols
    ensures k == (k / cols) * cols + k % cols
  {
    assert cols != 0;
    if k / cols >= rows {
      MulMonotone(rows, k / cols, cols);
      assert false;
    }
  }

  // ------------------------------------------------------- flat matrices

  /** Row i of a flat row-major matrix with `cols` columns. */
  function RowOf(a: Vec, cols: nat, i: nat): (r: Vec)
    requires (i + 1) * cols <= |a|
    ensures |r| == cols && forall j :: 0 <= j < cols ==> r[j] == a[i * cols + j]
  {
    a[i * cols .. i * cols + cols]
  }

  /** Column j of a flat row-major rows x cols matrix. */
  function ColOf(b: Vec, rows: nat, cols: nat, j: nat): (r: Vec)
    requires |b| == rows * cols && j < cols
    ensures |r| == rows
  {
    seq(rows, k requires 0 <= k < rows => RowColInRange(k, j, rows, cols); b[k * cols + j])
  }

  lemma ColOfAt(b: Vec, rows: nat, cols: nat, j: nat, k: nat)
    requires |b| == rows * cols && j < cols && k < rows
    ensures k * cols + j < |b| && ColOf(b, rows, cols, j)[k] == b[k * cols + j]
  {
    RowColInRange(k, j, rows, cols);
  }

  /** Outer product u v^T, flat row-major |u| x |v|. */
  function Outer(u: Vec, v: Vec): (r: Vec)
    ensures |r| == |u| * |v|
  {
    seq(|u| * |v|, k requires 0 <= k < |u| * |v| =>
      DivBound(k, |u|, |v|); u[k / |v|] * v[k % |v|])
  }

  lemma OuterAt(u: Vec, v: Vec, i: nat, j: nat)
    requires i < |u| && j < |v|
    ensures 0 <= i * |v| && i * |v| + j < |Outer(u, v)| && Outer(u, v)[i * |v| + j] == u[i] * v[j]
  {
    RowColInRange(i, j, |u|, |v|);
    DivModRowCol(i, j, |v|);
  }

  /** The outer product is additive in its first argument. */
  lemma OuterAddLeft(a: Vec, b: Vec, v: Vec)
    requires |a| == |b|
    ensures Outer(VecAdd(a, b), v) == VecAdd(Outer(a, v), Outer(b, v))
  {
    var l, r := Outer(VecAdd(a, b), v), VecAdd(Outer(a, v), Outer(b, v));
    forall k | 0 <= k < |l| ensures l[k] == r[k] {
      DivBound(k, |a|, |v|);
    }
  }

  /** Row-major flattening of the first `cols` entries of every row. */
  function Flatten(rows: seq<seq<real>>, cols: nat): (r: Vec)
    requires forall i :: 0 <= i < |rows| ==> cols <= |rows[i]|
    ensures |r| == |rows| * cols
  {
    seq(|rows| * cols, k requires 0 <= k < |rows| * cols =>
      DivBound(k, |rows|, cols); rows[k / cols][k % cols])
  }

  lemma FlattenAt(rows: seq<seq<real>>, cols: nat, i: nat, j: nat)
    requires forall i :: 0 <= i < |rows| ==> cols <= |rows[i]|
    requires i < |rows| && j < cols
    ensures i * cols + j < |rows| * cols && Flatten(rows, cols)[i * cols + j] == rows[i][j]
  {
    RowColInRange(i, j, |rows|, cols);
    DivModRowCol(i, j, cols);
  }

  /** Row i of a flattened matrix is (the first `cols` entries of) rows[i]. */
  lemma FlattenRow(rows: seq<seq<real>>, cols: nat, i: nat)
    requires forall i :: 0 <= i < |rows| ==> cols <= |rows[i]|
    requires i < |rows|
    ensures (i + 1) * cols <= |Flatten(rows, cols)|
    ensures RowOf(Flatten(rows, cols), cols, i) == rows[i][..cols]
  {
    RowColInRange(i, 0, |rows|, cols + 1);
    MulMonotone(i + 1, |rows|, cols);
    forall j | 0 <= j < cols ensures RowOf(Flatten(rows, cols), cols, i)[j] == rows[i][j] {
      FlattenAt(rows, cols, i, j);
    }
  }

  /** Transpose of a flat rows x cols matrix: its rows are the columns. */
  function Transpose(a: Vec, rows: nat, cols: nat): (r: Vec)
    requires |a| == rows * cols
    ensures |r| == cols * rows
  {
    Flatten(seq(cols, j requires 0 <= j < cols => ColOf(a, rows, cols, j)), rows)
  }

  lemma TransposeRow(a: Vec, rows: nat, cols: nat, j: nat)
    requires |a| == rows * cols && j < cols
    ensures (j + 1) * rows <= cols * rows
    ensures RowOf(Transpose(a, rows, cols), rows, j) == ColOf(a, rows, cols, j)
  {
    var cs := seq(cols, j requires 0 <= j < cols => ColOf(a, rows, cols, j));
    FlattenRow(cs, rows, j);
    assert cs[j][..rows] == cs[j];
  }

  /** Column i of the transpose is row i of the original. */
  lemma TransposeCol(a: Vec, rows: nat, cols: nat, i: nat)
    requires |a| == rows * cols && i < rows
    ensures (i + 1) * cols <= |a|
    ensures ColOf(Transpose(a, rows, cols), cols, rows, i) == RowOf(a, cols, i)
  {
    RowColInRange(i, 0, rows, cols + 1);
    MulMonotone(i + 1, rows, cols);
    var t := Transpose(a, rows, cols);
    var cs := seq(cols, j requires 0 <= j < cols => ColOf(a, rows, cols, j));
    forall j | 0 <= j < cols ensures ColOf(t, cols, rows, i)[j] == RowOf(a, cols, i)[j] {
      ColOfAt(t, cols, rows, i, j);
      FlattenAt(cs, rows, j, i);
      ColOfAt(a, rows, cols, j, i);
    }
  }
}
