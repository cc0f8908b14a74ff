/** The values the kernels work on: dense arrays of exact integers.

    A rank-agnostic tensor is a shape and its elements in row-major order.
    Matrices (for Dot) and 4-D tensors (for Conv2D and MaxPool2x2) are kept
    as nested sequences together with their dimensions, so that a tensor
    with a zero-sized leading axis still knows its other axes, as a numpy
    array does. */
module Tensors {
  import opened Sums

  /** The ways a kernel can refuse its operands (numpy raises ValueError). */
  datatype Error =
    | ShapeMismatch       // operand shapes the operation cannot combine
    | NegativeDimension   // a negative size was asked for

  datatype Result<T> = Ok(value: T) | Err(error: Error)

  datatype Option<T> = None | Some(value: T)

  /** Number of elements of an array of the given shape (1 for a 0-d array). */
  function Size(shape: seq<nat>): nat
  {
    if shape == [] then 1 else shape[0] * Size(shape[1..])
  }

  datatype Tensor = Tensor(shape: seq<nat>, data: seq<int>)
  {
    predicate Valid()
    {
      |data| == Size(shape)
    }
  }

  /** Entrywise sum, difference and product of two equally long sequences. */
  function Plus(a: seq<int>, b: seq<int>): (r: seq<int>)
    requires |a| == |b|
    ensures |r| == |a|
  {
    seq(|a|, i requires 0 <= i < |a| => a[i] + b[i])
  }

  function Minus(a: seq<int>, b: seq<int>): (r: seq<int>)
    requires |a| == |b|
    ensures |r| == |a|
  {
    seq(|a|, i requires 0 <= i < |a| => a[i] - b[i])
  }

  function Times(a: seq<int>, b: seq<int>): (r: seq<int>)
    requires |a| == |b|
    ensures |r| == |a|
  {
    seq(|a|, i requires 0 <= i < |a| => a[i] * b[i])
  }

  /** Sum of all elements. */
  function Total(s: seq<int>): int
  {
    Sum(|s|, (i: nat) => if i < |s| then s[i] else 0)
  }

  /** A 2-D array with `rows` rows of `cols` entries each. */
  datatype Matrix = Matrix(rows: nat, cols: nat, e: seq<seq<int>>)
  {
    predicate Valid()
    {
      |e| == rows && forall i :: 0 <= i < rows ==> |e[i]| == cols
    }

    /** Entry (i, j); 0 outside the stored entries. */
    function At(i: int, j: int): int
    {
      if 0 <= i < |e| && 0 <= j < |e[i]| then e[i][j] else 0
    }
  }

  /** The matrix of the given dimensions whose entry (i, j) is f(i, j). */
  function MatrixOf(rows: nat, cols: nat, f: (nat, nat) -> int): (m: Matrix)
    ensures m.Valid() && m.rows == rows && m.cols == cols
    ensures forall i: nat, j: nat :: i < rows && j < cols ==> m.At(i, j) == f(i, j)
  {
    Matrix(rows, cols, seq(rows, i requires 0 <= i < rows => seq(cols, j requires 0 <= j < cols => f(i, j))))
  }

  /** Frobenius inner product: the sum of the entrywise products. */
  function MatInner(a: Matrix, b: Matrix): int
  {
    Sum(a.rows, (i: nat) => RowInner(a, b, i))
  }

  /** The part of the Frobenius inner product that row i contributes. */
  function RowInner(a: Matrix, b: Matrix, i: nat): int
  {
    Sum(a.cols, (j: nat) => a.At(i, j) * b.At(i, j))
  }

  /** A 4-D array of shape (n, c, h, w), indexed [batch][channel][row][column]. */
  datatype Tensor4 = Tensor4(n: nat, c: nat, h: nat, w: nat, v: seq<seq<seq<seq<int>>>>)
  {
    predicate Valid()
    {
      && |v| == n
      && (forall b :: 0 <= b < n ==> |v[b]| == c)
      && (forall b, k :: 0 <= b < n && 0 <= k < c ==> |v[b][k]| == h)
      && (forall b, k, y :: 0 <= b < n && 0 <= k < c && 0 <= y < h ==> |v[b][k][y]| == w)
    }

    /** Entry [b, k, y, x]; 0 outside the stored entries. */
    function At(b: int, k: int, y: int, x: int): int
    {
      if 0 <= b < |v| && 0 <= k < |v[b]| && 0 <= y < |v[b][k]| && 0 <= x < |v[b][k][y]|
      then v[b][k][y][x] else 0
    }

    predicate InBounds(b: int, k: int, y: int, x: int)
    {
      0 <= b < n && 0 <= k < c && 0 <= y < h && 0 <= x < w
    }
  }

  /** The h-by-w grid whose entry [y][x] is f(y, x). */
  function Grid(h: nat, w: nat, f: (nat, nat) -> int): (g: seq<seq<int>>)
    ensures |g| == h && forall y :: 0 <= y < h ==> |g[y]| == w
    ensures forall y: nat, x: nat :: y < h && x < w ==> g[y][x] == f(y, x)
  {
    seq(h, y requires 0 <= y < h => seq(w, x requires 0 <= x < w => f(y, x)))
  }

  /** The 4-D tensor of the given shape whose entry [b, k, y, x] is f(b, k, y, x). */
  function Tensor4Of(n: nat, c: nat, h: nat, w: nat, f: (nat, nat, nat, nat) -> int): (t: Tensor4)
    ensures t.Valid() && t.n == n && t.c == c && t.h == h && t.w == w
    ensures forall b: nat, k: nat, y: nat, x: nat :: t.InBounds(b, k, y, x) ==> t.At(b, k, y, x) == f(b, k, y, x)
  {
    Tensor4(n, c, h, w,
      seq(n, b requires 0 <= b < n =>
        seq(c, k requires 0 <= k < c => Grid(h, w, (y: nat, x: nat) => f(b, k, y, x)))))
  }

  /** Two 4-D tensors of one shape that agree entry by entry are equal. */
  lemma Tensor4Ext(s: Tensor4, t: Tensor4)
    requires s.Valid() && t.Valid() && s.n == t.n && s.c == t.c && s.h == t.h && s.w == t.w
    requires forall b: nat, k: nat, y: nat, x: nat :: s.InBounds(b, k, y, x) ==> s.At(b, k, y, x) == t.At(b, k, y, x)
    ensures s == t
  {
    forall b | 0 <= b < s.n
      ensures s.v[b] == t.v[b]
    {
      forall k | 0 <= k < s.c
        ensures s.v[b][k] == t.v[b][k]
      {
        forall y | 0 <= y < s.h
          ensures s.v[b][k][y] == t.v[b][k][y]
        {
          forall x | 0 <= x < s.w
            ensures s.v[b][k][y][x] == t.v[b][k][y][x]
          {
            assert s.InBounds(b, k, y, x);
          }
        }
      }
    }
  }

  /** The value held by a 4-D array. */
  method Freeze(a: array4<int>) returns (t: Tensor4)
    ensures t.Valid() && t.n == a.Length0 && t.c == a.Length1 && t.h == a.Length2 && t.w == a.Length3
    ensures forall b, k, y, x :: t.InBounds(b, k, y, x) ==> t.At(b, k, y, x) == a[b, k, y, x]
  {
    var n, c, h, w := a.Length0, a.Length1, a.Length2, a.Length3;
    t := Tensor4(n, c, h, w,
      seq(n, b requires 0 <= b < n reads a =>
        seq(c, k requires 0 <= k < c reads a =>
          seq(h, y requires 0 <= y < h reads a =>
            seq(w, x requires 0 <= x < w reads a => a[b, k, y, x])))));
  }

  /** Entrywise sum and difference of two 4-D tensors of one shape. */
  function Plus4(a: Tensor4, b: Tensor4): (r: Tensor4)
    requires a.n == b.n && a.c == b.c && a.h == b.h && a.w == b.w
    ensures r.Valid() && r.n == a.n && r.c == a.c && r.h == a.h && r.w == a.w
    ensures forall i: nat, k: nat, y: nat, x: nat :: r.InBounds(i, k, y, x) ==> r.At(i, k, y, x) == a.At(i, k, y, x) + b.At(i, k, y, x)
  {
    Tensor4Of(a.n, a.c, a.h, a.w, (i: nat, k: nat, y: nat, x: nat) => a.At(i, k, y, x) + b.At(i, k, y, x))
  }

  function Minus4(a: Tensor4, b: Tensor4): (r: Tensor4)
    requires a.n == b.n && a.c == b.c && a.h == b.h && a.w == b.w
    ensures r.Valid() && r.n == a.n && r.c == a.c && r.h == a.h && r.w == a.w
    ensures forall i: nat, k: nat, y: nat, x: nat :: r.InBounds(i, k, y, x) ==> r.At(i, k, y, x) == a.At(i, k, y, x) - b.At(i, k, y, x)
  {
    Tensor4Of(a.n, a.c, a.h, a.w, (i: nat, k: nat, y: nat, x: nat) => a.At(i, k, y, x) - b.At(i, k, y, x))
  }

  /** s reads as the sum of a and b at every index. */
  ghost predicate IsSum(s: Tensor4, a: Tensor4, b: Tensor4)
  {
    forall i: int, k: int, y: int, x: int :: s.At(i, k, y, x) == a.At(i, k, y, x) + b.At(i, k, y, x)
  }

  /** Outside its shape a well-formed tensor reads as 0, so the entrywise sum
      of two of one shape is the sum of their entries at every index. */
  lemma Plus4IsSum(a: Tensor4, b: Tensor4)
    requires a.Valid() && b.Valid() && a.n == b.n && a.c == b.c && a.h == b.h && a.w == b.w
    ensures IsSum(Plus4(a, b), a, b)
  {
    var s := Plus4(a, b);
    forall i: int, k: int, y: int, x: int
      ensures s.At(i, k, y, x) == a.At(i, k, y, x) + b.At(i, k, y, x)
    {
      if !a.InBounds(i, k, y, x) {
        assert a.At(i, k, y, x) == 0 && b.At(i, k, y, x) == 0;
      }
    }
  }

  /** Inner product of two 4-D tensors over the first one's index range. */
  function Inner4(a: Tensor4, b: Tensor4): int
  {
    Sum(a.n, (i: nat) => InnerBatch(a, b, i))
  }

  function InnerBatch(a: Tensor4, b: Tensor4, i: nat): int
  {
    Sum(a.c, (k: nat) => InnerPlane(a, b, i, k))
  }

  function InnerPlane(a: Tensor4, b: Tensor4, i: nat, k: nat): int
  {
    Sum(a.h, (y: nat) => InnerRow(a, b, i, k, y))
  }

  function InnerRow(a: Tensor4, b: Tensor4, i: nat, k: nat, y: nat): int
  {
    Sum(a.w, (x: nat) => a.At(i, k, y, x) * b.At(i, k, y, x))
  }

  /** The part of the inner product that plane (i, k) contributes, as a sum
      over the grid of its terms. */
  lemma InnerPlaneGrid(a: Tensor4, b: Tensor4, i: nat, k: nat, f: (nat, nat) -> int)
    requires forall y: nat, x: nat :: y < a.h && x < a.w ==> a.At(i, k, y, x) * b.At(i, k, y, x) == f(y, x)
    ensures InnerPlane(a, b, i, k) == GridSum(a.h, a.w, f)
  {
    var cols := a.w;
    forall y: nat | y < a.h
      ensures InnerRow(a, b, i, k, y) == RowSum(cols, y, f)
    {
      SumExt(a.w, (x: nat) => a.At(i, k, y, x) * b.At(i, k, y, x), (c: nat) => f(y, c));
    }
    SumExt(a.h, (y: nat) => InnerRow(a, b, i, k, y), (r: nat) => RowSum(cols, r, f));
  }

  /** The part of the inner product that batch entry i contributes, as a
      sum over the block of its terms. */
  lemma InnerBatchSum3(a: Tensor4, b: Tensor4, i: nat, f: (nat, nat, nat) -> int)
    requires forall k: nat, y: nat, x: nat :: k < a.c && y < a.h && x < a.w ==> a.At(i, k, y, x) * b.At(i, k, y, x) == f(k, y, x)
    ensures InnerBatch(a, b, i) == Sum3(a.c, a.h, a.w, f)
  {
    var h, w := a.h, a.w;
    forall k: nat | k < a.c
      ensures InnerPlane(a, b, i, k) == GridSum(h, w, Slice(f, k))
    {
      forall y: nat, x: nat | y < a.h && x < a.w
        ensures a.At(i, k, y, x) * b.At(i, k, y, x) == Slice(f, k)(y, x)
      {
      }
      InnerPlaneGrid(a, b, i, k, Slice(f, k));
    }
    SumExt(a.c, (k: nat) => InnerPlane(a, b, i, k), (ci: nat) => GridSum(h, w, Slice(f, ci)));
  }
}
