/**
 * The engine's Tensor: a Float32Array view with a shape, row-major strides and
 * an optional gradient tensor. A Float32Array is modelled as the triple
 * (buffer, offset, size): the shared ArrayBuffer and the window the view sees,
 * so that `row` can return a view that aliases its parent exactly as
 * `subarray` does.
 */
module Tensors {
  import opened Numeric

  datatype Option<T> = None | Some(value: T)

  /** Number of elements of a shape (`shape.reduce((a, b) => a * b, 1)`). */
  function Product(shape: seq<nat>): nat
  {
    if |shape| == 0 then 1 else shape[0] * Product(shape[1..])
  }

  lemma ProductOfPair(m: nat, n: nat)
    ensures Product([n]) == n && Product([m, n]) == m * n
  {
    assert [m, n][1..] == [n];
    assert [n][1..] == [];
  }

  /** Row-major strides: the stride of axis i is the product of the later axes. */
  function Strides(shape: seq<nat>): (r: seq<nat>)
    ensures |r| == |shape|
  {
    seq(|shape|, i requires 0 <= i < |shape| => Product(shape[i + 1..]))
  }

  /** The strides really are row-major: the last is 1, each is the next one
      times the next axis, and the first times the first axis is the size. */
  lemma ProductFrom(shape: seq<nat>, i: nat)
    requires i < |shape|
    ensures Product(shape[i..]) == shape[i] * Product(shape[i + 1..])
  {
    assert shape[i..][1..] == shape[i + 1..];
  }

  lemma StridesStep(shape: seq<nat>, i: nat)
    requires i + 1 < |shape|
    ensures Strides(shape)[i] == Strides(shape)[i + 1] * shape[i + 1]
  {
    ProductFrom(shape, i + 1);
  }

  lemma StridesRowMajor(shape: seq<nat>)
    ensures |shape| > 0 ==> Strides(shape)[|shape| - 1] == 1
    ensures |shape| > 0 ==> Strides(shape)[0] * shape[0] == Product(shape)
    ensures forall i :: 0 <= i < |shape| - 1 ==>
      Strides(shape)[i] == Strides(shape)[i + 1] * shape[i + 1]
  {
    forall i | 0 <= i < |shape| - 1 ensures Strides(shape)[i] == Strides(shape)[i + 1] * shape[i + 1] {
      StridesStep(shape, i);
    }
    if |shape| > 0 {
      StridesEnds(shape);
      StridesFirst(shape);
    }
  }

  lemma StridesEnds(shape: seq<nat>)
    requires |shape| > 0
    ensures Strides(shape)[|shape| - 1] == 1
  {
    var n := |shape|;
    assert shape[n - 1 + 1..] == [];
  }

  lemma StridesFirst(shape: seq<nat>)
    requires |shape| > 0
    ensures Strides(shape)[0] * shape[0] == Product(shape)
  {
    StridesHead(shape);
    ProductHead(shape);
  }

  lemma StridesHead(shape: seq<nat>)
    requires |shape| > 0
    ensures Strides(shape)[0] == Product(shape[1..])
  {
  }

  lemma ProductHead(shape: seq<nat>)
    requires |shape| > 0
    ensures Product(shape) == shape[0] * Product(shape[1..])
  {
  }

  /** Dropping the first axis drops the first stride. */
  lemma StridesTail(shape: seq<nat>)
    requires |shape| > 0
    ensures Strides(shape)[0] == Product(shape[1..])
    ensures Strides(shape)[1..] == Strides(shape[1..])
  {
    var rest := shape[1..];
    forall k | 0 <= k < |rest| ensures Strides(shape)[1..][k] == Strides(rest)[k] {
      assert shape[k + 2..] == rest[k + 1..];
    }
  }

  /** The offset of an index tuple: the sum of indices[i] * strides[i]. */
  function FlatIndex(indices: seq<int>, strides: seq<nat>): int
    requires |indices| == |strides|
  {
    if |indices| == 0 then 0
    else indices[0] * strides[0] + FlatIndex(indices[1..], strides[1..])
  }

  lemma {:induction false} FlatIndexAppend(indices: seq<int>, strides: seq<nat>, x: int, s: nat)
    requires |indices| == |strides|
    ensures FlatIndex(indices + [x], strides + [s]) == FlatIndex(indices, strides) + x * s
  {
    if |indices| > 0 {
      assert (indices + [x])[1..] == indices[1..] + [x];
      assert (strides + [s])[1..] == strides[1..] + [s];
      FlatIndexAppend(indices[1..], strides[1..], x, s);
    } else {
      assert (indices + [x])[1..] == [];
    }
  }

  /** Every component of the tuple lies inside its axis. */
  predicate InBounds(indices: seq<int>, shape: seq<nat>)
  {
    |indices| == |shape| && forall i :: 0 <= i < |shape| ==> 0 <= indices[i] < shape[i]
  }

  /** In-bounds tuples land inside the tensor. */
  lemma {:induction false} FlatIndexInRange(indices: seq<int>, shape: seq<nat>)
    requires InBounds(indices, shape)
    ensures 0 <= FlatIndex(indices, Strides(shape)) < Product(shape)
  {
    if |shape| > 0 {
      var rest := shape[1..];
      StridesTail(shape);
      assert InBounds(indices[1..], rest);
      FlatIndexInRange(indices[1..], rest);
      var x, f, p := indices[0], FlatIndex(indices[1..], Strides(rest)), Product(rest);
      assert FlatIndex(indices, Strides(shape)) == x * p + f;
      assert 0 <= x * p;
      assert (x + 1) * p == x * p + p;
      MulMonotone(x + 1, shape[0], p);
    }
  }

  /** Distinct in-bounds tuples land on distinct offsets. */
  lemma {:induction false} FlatIndexInjective(a: seq<int>, b: seq<int>, shape: seq<nat>)
    requires InBounds(a, shape) && InBounds(b, shape)
    requires FlatIndex(a, Strides(shape)) == FlatIndex(b, Strides(shape))
    ensures a == b
  {
    if |shape| > 0 {
      var rest := shape[1..];
      StridesTail(shape);
      assert InBounds(a[1..], rest) && InBounds(b[1..], rest);
      FlatIndexInRange(a[1..], rest);
      FlatIndexInRange(b[1..], rest);
      var fa, fb := FlatIndex(a[1..], Strides(rest)), FlatIndex(b[1..], Strides(rest));
      var p := Product(rest);
      assert a[0] * p + fa == b[0] * p + fb;
      DivModRowCol(a[0], fa, p);
      DivModRowCol(b[0], fb, p);
      FlatIndexInjective(a[1..], b[1..], rest);
      assert a == [a[0]] + a[1..] && b == [b[0]] + b[1..];
    }
  }

  /** `computeStrides`: the loop that walks the axes from the last to the first. */
  method ComputeStrides(shape: seq<nat>) returns (r: seq<nat>)
    ensures r == Strides(shape)
    ensures |shape| > 0 ==> r[|shape| - 1] == 1 && r[0] * shape[0] == Product(shape)
    ensures forall i :: 0 <= i < |shape| - 1 ==> r[i] == r[i + 1] * shape[i + 1]
  {
    var strides := new nat[|shape|];
    var stride: nat := 1;
    var i := |shape| - 1;
    assert shape[|shape|..] == [];
    while i >= 0
      invariant -1 <= i < |shape|
      invariant stride == Product(shape[i + 1..])
      invariant forall k :: i < k < |shape| ==> strides[k] == Product(shape[k + 1..])
    {
      strides[i] := stride;
      assert shape[i..][1..] == shape[i + 1..];
      stride := stride * shape[i];
      i := i - 1;
    }
    r := strides[..];
    StridesRowMajor(shape);
  }

  /** JS `subarray` clamping of a relative position into [0, len]. */
  function Clamp(rel: int, len: nat): (r: nat)
    ensures r <= len
    ensures 0 <= rel <= len ==> r == rel
  {
    if rel < 0 then (if len + rel < 0 then 0 else len + rel)
    else if rel > len then len
    else rel
  }

  /** The arguments accepted by `Tensor.from`: a flat array or an array of rows. */
  datatype FromArg = Flat(xs: seq<real>) | Nested(rows: seq<seq<real>>)

  class Tensor {
    const buffer: array<real>
    const offset: nat
    /** `data.length` */
    const size: nat
    const shape: seq<nat>
    const strides: seq<nat>
    const requiresGrad: bool
    /** Set once, when the tensor is created with requiresGrad. */
    const grad: Tensor?

    /** The view lies inside its buffer and the strides are row-major. */
    ghost predicate WellFormed()
    {
      offset + size <= buffer.Length && strides == Strides(shape)
    }

    /** WellFormed, and the gradient (if any) is well formed and has a buffer
        of its own. */
    ghost predicate Valid()
    {
      && WellFormed()
      && (grad != null ==> grad.buffer != buffer && grad.WellFormed())
    }

    /** The elements the view sees. */
    function Data(): (d: Vec)
      reads buffer
      requires offset + size <= buffer.Length
      ensures |d| == size
    {
      buffer[offset .. offset + size]
    }

    /** The elements of the gradient tensor. */
    function GradData(): (d: Vec)
      reads if grad == null then {} else {grad.buffer}
      requires Valid() && grad != null
      ensures |d| == grad.size
    {
      grad.Data()
    }

    /** `new Tensor(data, shape, requiresGrad)`; with requiresGrad a zero
        gradient of the same shape is allocated. */
    constructor (buffer: array<real>, offset: nat, size: nat, shape: seq<nat>, requiresGrad: bool)
      requires offset + size <= buffer.Length
      ensures Valid()
      ensures this.buffer == buffer && this.offset == offset && this.size == size
      ensures this.shape == shape && this.requiresGrad == requiresGrad
      ensures !requiresGrad ==> grad == null
      ensures requiresGrad ==> (grad != null && fresh(grad) && fresh(grad.buffer)
        && grad.Valid() && grad.grad == null && grad.shape == shape
        && grad.Data() == Numeric.Zeros(Product(shape)))
      decreases requiresGrad
    {
      this.buffer := buffer;
      this.offset := offset;
      this.size := size;
      this.shape := shape;
      this.requiresGrad := requiresGrad;
      var st := ComputeStrides(shape);
      this.strides := st;
      if requiresGrad {
        var n := Product(shape);
        var g := new real[n](_ => 0.0);
        grad := new Tensor(g, 0, n, shape, false);
        assert g[0..n] == g[..];
      } else {
        grad := null;
      }
    }

    /** `Tensor.zeros(shape)`: a fresh buffer of product(shape) zeros. */
    static method Zeros(shape: seq<nat>) returns (t: Tensor)
      ensures fresh(t) && fresh(t.buffer) && t.Valid() && t.grad == null
      ensures t.shape == shape && t.offset == 0 && t.size == Product(shape)
      ensures t.buffer.Length == t.size && t.Data() == Numeric.Zeros(Product(shape))
    {
      var n := Product(shape);
      var b := new real[n](_ => 0.0);
      t := new Tensor(b, 0, n, shape, false);
      assert b[0..n] == b[..];
    }

    /** `Tensor.ones(shape)`: a fresh buffer of product(shape) ones. */
    static method Ones(shape: seq<nat>) returns (t: Tensor)
      ensures fresh(t) && fresh(t.buffer) && t.Valid() && t.grad == null
      ensures t.shape == shape && t.offset == 0 && t.size == Product(shape)
      ensures t.buffer.Length == t.size
      ensures t.Data() == seq(Product(shape), _ => 1.0)
    {
      var n := Product(shape);
      var b := new real[n](_ => 1.0);
      t := new Tensor(b, 0, n, shape, false);
      assert b[0..n] == b[..];
    }

    /** `Tensor.from`: a flat array becomes a 1-D tensor; an array of rows a
        2-D tensor with the first row's length as its width. */
    static method From(arg: FromArg, requiresGrad: bool) returns (t: Tensor)
      requires arg.Nested? ==> forall i :: 0 <= i < |arg.rows| ==> |arg.rows[0]| <= |arg.rows[i]|
      ensures fresh(t) && fresh(t.buffer) && t.Valid() && t.offset == 0
      ensures t.requiresGrad == requiresGrad
      ensures arg.Flat? ==> t.shape == [|arg.xs|] && t.Data() == arg.xs
      ensures arg.Nested? && |arg.rows| == 0 ==> t.shape == [0] && t.Data() == []
      ensures arg.Nested? && |arg.rows| > 0 ==>
        t.shape == [|arg.rows|, |arg.rows[0]|] && t.Data() == Flatten(arg.rows, |arg.rows[0]|)
    {
      if arg.Flat? || |arg.rows| == 0 {
        var xs := if arg.Flat? then arg.xs else [];
        var b := new real[|xs|](i requires 0 <= i < |xs| => xs[i]);
        t := new Tensor(b, 0, |xs|, [|xs|], requiresGrad);
        assert b[0..|xs|] == b[..] == xs;
      } else {
        var rows := arg.rows;
        var m, c := |rows|, |rows[0]|;
        var n := m * c;
        var b := new real[n];
        ghost var want := Flatten(rows, c);
        for i := 0 to m
          invariant forall k :: 0 <= k < i * c ==> b[k] == want[k]
        {
          CopyRow(b, rows, c, i);
        }
        t := new Tensor(b, 0, n, [m, c], requiresGrad);
        assert b[0..n] == b[..] == want;
      }
    }

    /** Row i of rows copied to b at i * c, after the rows before it. */
    static method CopyRow(b: array<real>, rows: seq<seq<real>>, c: nat, i: nat)
      requires forall r :: 0 <= r < |rows| ==> c <= |rows[r]|
      requires i < |rows| && b.Length == |rows| * c
      requires forall k :: 0 <= k < i * c ==> b[k] == Flatten(rows, c)[k]
      modifies b
      ensures forall k :: 0 <= k < (i + 1) * c ==> b[k] == Flatten(rows, c)[k]
    {
      ghost var want := Flatten(rows, c);
      FlattenRow(rows, c, i);
      assert (i + 1) * c == i * c + c;
      for j := 0 to c
        invariant forall k :: 0 <= k < i * c + j ==> b[k] == want[k]
      {
        FlattenAt(rows, c, i, j);
        b[i * c + j] := rows[i][j];
      }
    }

    /** `index(...indices)`: the stride-weighted sum, accumulated left to
        right. With more indices than axes the JS result is NaN (None). */
    method Index(indices: seq<int>) returns (r: Option<int>)
      requires Valid()
      ensures |indices| > |strides| ==> r == None
      ensures |indices| <= |strides| ==> r == Some(FlatIndex(indices, strides[..|indices|]))
    {
      if |indices| > |strides| {
        return None;
      }
      var idx := 0;
      var i := 0;
      while i < |indices|
        invariant 0 <= i <= |indices|
        invariant idx == FlatIndex(indices[..i], strides[..i])
      {
        FlatIndexAppend(indices[..i], strides[..i], indices[i], strides[i]);
        assert indices[..i + 1] == indices[..i] + [indices[i]];
        assert strides[..i + 1] == strides[..i] + [strides[i]];
        idx := idx + indices[i] * strides[i];
        i := i + 1;
      }
      assert indices[..i] == indices;
      r := Some(idx);
    }

    /** `get(...indices)`: the element at the offset, or undefined (None)
        when the offset falls outside the view. */
    method Get(indices: seq<int>) returns (r: Option<real>)
      requires Valid()
      ensures |indices| > |shape| ==> r == None
      ensures |indices| <= |shape| ==>
        var k := FlatIndex(indices, strides[..|indices|]);
        r == if 0 <= k < size then Some(Data()[k]) else None
    {
      var k := Index(indices);
      if k.Some? && 0 <= k.value < size {
        r := Some(buffer[offset + k.value]);
      } else {
        r := None;
      }
    }

    /** `set(value, ...indices)`: writes the one element at the offset; a
        write outside the view is dropped, as typed arrays do. The write goes
        to the shared buffer, so every view of it sees the change. */
    method Set(value: real, indices: seq<int>)
      requires Valid()
      modifies buffer
      ensures |indices| <= |shape| && 0 <= FlatIndex(indices, strides[..|indices|]) < size ==>
        buffer[..] == old(buffer[..])[offset + FlatIndex(indices, strides[..|indices|]) := value]
      ensures !(|indices| <= |shape| && 0 <= FlatIndex(indices, strides[..|indices|]) < size) ==>
        buffer[..] == old(buffer[..])
    {
      var k := Index(indices);
      if k.Some? && 0 <= k.value < size {
        buffer[offset + k.value] := value;
      }
    }

    /** `row(i)`: a view of `cols` elements starting at i * cols, sharing the
        buffer; `subarray` clamps the window to the parent view. */
    method Row(i: int) returns (v: Tensor)
      requires Valid() && |shape| >= 2
      ensures fresh(v) && v.Valid() && v.grad == null && !v.requiresGrad
      ensures v.buffer == buffer && v.shape == [shape[1]]
      ensures v.offset == offset + Clamp(i * shape[1], size)
      ensures v.size == if Clamp(i * shape[1] + shape[1], size) >= Clamp(i * shape[1], size)
        then Clamp(i * shape[1] + shape[1], size) - Clamp(i * shape[1], size) else 0
      ensures 0 <= i && (i + 1) * shape[1] <= size ==>
        v.size == shape[1] && v.Data() == RowOf(Data(), shape[1], i)
    {
      var cols := shape[1];
      var begin := Clamp(i * cols, size);
      var end := Clamp(i * cols + cols, size);
      var len := if end >= begin then end - begin else 0;
      v := new Tensor(buffer, offset + begin, len, [cols], false);
      if 0 <= i && (i + 1) * cols <= size {
        assert v.Data() == Data()[i * cols .. i * cols + cols];
      }
    }

    /** `clone()`: a copy of the elements in a fresh buffer, same shape, and a
        fresh zero gradient when requiresGrad (the gradient is not copied). */
    method Clone() returns (c: Tensor)
      requires Valid()
      ensures fresh(c) && fresh(c.buffer) && c.Valid()
      ensures c.Data() == Data() && c.shape == shape && c.requiresGrad == requiresGrad
      ensures c.requiresGrad ==> c.grad != null && fresh(c.grad) && c.GradData() == Numeric.Zeros(Product(shape))
      ensures !c.requiresGrad ==> c.grad == null
    {
      var d := Data();
      var b := new real[size](i requires 0 <= i < size => d[i]);
      c := new Tensor(b, 0, size, shape, requiresGrad);
      assert b[0..size] == b[..] == d;
    }

    /** `fill(value)`: every element of the view becomes `value`; the rest of
        the buffer is untouched. */
    method Fill(value: real)
      requires WellFormed()
      modifies buffer
      ensures Data() == seq(size, _ => value)
      ensures forall k :: 0 <= k < buffer.Length && !(offset <= k < offset + size) ==>
        buffer[k] == old(buffer[k])
    {
      var i := 0;
      while i < size
        invariant 0 <= i <= size
        invariant forall k :: offset <= k < offset + i ==> buffer[k] == value
        invariant forall k :: 0 <= k < buffer.Length && !(offset <= k < offset + i) ==>
          buffer[k] == old(buffer[k])
      {
        buffer[offset + i] := value;
        i := i + 1;
      }
    }

    /** `data.set(src)`: the view's first |src| elements become src (a
        longer src throws RangeError, hence the requires); the rest of the
        buffer is untouched. */
    method SetData(src: Vec)
      requires WellFormed() && |src| <= size
      modifies buffer
      ensures Data() == src + old(Data())[|src|..]
      ensures forall k :: 0 <= k < buffer.Length && !(offset <= k < offset + size) ==>
        buffer[k] == old(buffer[k])
    {
      var i := 0;
      while i < |src|
        invariant 0 <= i <= |src|
        invariant forall k :: 0 <= k < buffer.Length ==>
          buffer[k] == if offset <= k < offset + i then src[k - offset] else old(buffer[k])
      {
        buffer[offset + i] := src[i];
        i := i + 1;
      }
    }

    /** `data[idx] += d`: one element of the view moves by d; an index past
        the view reads undefined and the write is dropped, as typed arrays
        do. Nothing else in the buffer changes. */
    method AddAt(idx: nat, d: real)
      requires WellFormed()
      modifies buffer
      ensures Data() == if idx < size then old(Data())[idx := old(Data())[idx] + d] else old(Data())
      ensures forall k :: 0 <= k < buffer.Length && !(offset <= k < offset + size) ==>
        buffer[k] == old(buffer[k])
    {
      if idx < size {
        buffer[offset + idx] := buffer[offset + idx] + d;
      }
    }

    /** `zeroGrad()`: zeroes the gradient, leaves the data alone, and does
        nothing without a gradient. */
    method ZeroGrad()
      requires Valid()
      modifies if grad == null then {} else {grad.buffer}
      ensures grad != null ==> GradData() == Numeric.Zeros(grad.size)
      ensures grad != null ==> forall k :: (0 <= k < grad.buffer.Length
        && !(grad.offset <= k < grad.offset + grad.size)) ==> grad.buffer[k] == old(grad.buffer[k])
      ensures buffer[..] == old(buffer[..])
    {
      if grad != null {
        grad.Fill(0.0);
      }
    }

    /** `reshape(newShape)`: throws (None) unless the element count is
        unchanged; otherwise a new tensor over the same data, with a fresh
        zero gradient of its own when requiresGrad is set. */
    method Reshape(newShape: seq<nat>) returns (r: Option<Tensor>)
      requires Valid()
      ensures r.None? <==> Product(newShape) != size
      ensures r.Some? ==> (fresh(r.value) && r.value.Valid()
        && r.value.buffer == buffer && r.value.offset == offset && r.value.size == size
        && r.value.shape == newShape && r.value.requiresGrad == requiresGrad)
      ensures r.Some? && !requiresGrad ==> r.value.grad == null
      ensures r.Some? && requiresGrad ==> (r.value.grad != null && fresh(r.value.grad)
        && fresh(r.value.grad.buffer) && r.value.grad.Valid() && r.value.grad.grad == null
        && r.value.grad.shape == newShape && r.value.grad.Data() == Numeric.Zeros(size))
    {
      var newSize := Product(newShape);
      if newSize != size {
        return None;
      }
      var t := new Tensor(buffer, offset, size, newShape, requiresGrad);
      r := Some(t);
    }
  }

  /** Two views of one buffer see the same elements where they overlap: a
      write through a row view is a write to the parent. */
  lemma ViewsAgree(parent: Tensor, view: Tensor, j: nat)
    requires parent.Valid() && view.Valid() && view.buffer == parent.buffer
    requires parent.offset <= view.offset && j < view.size
    requires view.offset + view.size <= parent.offset + parent.size
    ensures view.Data()[j] == parent.Data()[view.offset - parent.offset + j]
  {
  }
}
