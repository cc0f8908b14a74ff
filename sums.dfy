/** Finite sums over index ranges and the vector dot product. Every
    index-level statement of the kernels (a matrix entry, a convolution
    output, an accumulated gradient) is a nest of these sums. */
module Sums {

  /** The sum f(0) + f(1) + ... + f(n - 1). */
  function Sum(n: nat, f: nat -> int): int
  {
    if n == 0 then 0 else Sum(n - 1, f) + f(n - 1)
  }

  lemma {:induction false} SumExt(n: nat, f: nat -> int, g: nat -> int)
    requires forall i: nat :: i < n ==> f(i) == g(i)
    ensures Sum(n, f) == Sum(n, g)
  {
    if n > 0 {
      SumExt(n - 1, f, g);
    }
  }

  lemma {:induction false} SumAdd(n: nat, f: nat -> int, g: nat -> int, h: nat -> int)
    requires forall i: nat :: i < n ==> h(i) == f(i) + g(i)
    ensures Sum(n, h) == Sum(n, f) + Sum(n, g)
  {
    if n > 0 {
      SumAdd(n - 1, f, g, h);
    }
  }

  lemma {:induction false} SumScale(n: nat, c: int, f: nat -> int, h: nat -> int)
    requires forall i: nat :: i < n ==> h(i) == c * f(i)
    ensures Sum(n, h) == c * Sum(n, f)
  {
    if n > 0 {
      SumScale(n - 1, c, f, h);
    }
  }

  lemma {:induction false} SumZero(n: nat, f: nat -> int)
    requires forall i: nat :: i < n ==> f(i) == 0
    ensures Sum(n, f) == 0
  {
    if n > 0 {
      SumZero(n - 1, f);
    }
  }

  /** A sum whose terms vanish everywhere except at k is its k-th term. */
  lemma {:induction false} SumSingle(n: nat, f: nat -> int, k: nat)
    requires k < n
    requires forall i: nat :: i < n && i != k ==> f(i) == 0
    ensures Sum(n, f) == f(k)
  {
    if n - 1 == k {
      SumZero(n - 1, f);
    } else {
      SumSingle(n - 1, f, k);
    }
  }

  /** Sums over a rectangle may be taken in either order. */
  lemma {:induction false} SumSwap(n: nat, m: nat, f: (nat, nat) -> int)
    ensures Sum(n, (i: nat) => Sum(m, (j: nat) => f(i, j))) == Sum(m, (j: nat) => Sum(n, (i: nat) => f(i, j)))
  {
    var rows := (i: nat) => Sum(m, (j: nat) => f(i, j));
    var cols := (j: nat) => Sum(n, (i: nat) => f(i, j));
    if n > 0 {
      var fewer := (j: nat) => Sum(n - 1, (i: nat) => f(i, j));
      var last := (j: nat) => f(n - 1, j);
      SumSwap(n - 1, m, f);
      SumExt(m, last, (j: nat) => f(n - 1, j));
      SumAdd(m, fewer, last, cols);
    } else {
      SumZero(m, cols);
    }
  }

  /** f(0) + f(1) + ... + f(2n - 1), taken two terms at a time. */
  lemma {:induction false} SumPairs(n: nat, f: nat -> int, h: nat -> int)
    requires forall i: nat :: i < n ==> h(i) == f(2 * i) + f(2 * i + 1)
    ensures Sum(2 * n, f) == Sum(n, h)
  {
    if n > 0 {
      SumPairs(n - 1, f, h);
    }
  }

  /** f(r, 0) + ... + f(r, c - 1). */
  function RowSum(c: nat, r: nat, f: (nat, nat) -> int): int
  {
    Sum(c, (k: nat) => f(r, k))
  }

  /** The sum of f(r, c) over a rows-by-cols grid, row by row. */
  function GridSum(rows: nat, cols: nat, f: (nat, nat) -> int): int
  {
    Sum(rows, (r: nat) => RowSum(cols, r, f))
  }

  /** The sum of f over the grid positions that come before (r, c) in
      row-major order, on a grid `cols` wide. */
  function RowMajorSum(cols: nat, r: nat, c: nat, f: (nat, nat) -> int): int
  {
    GridSum(r, cols, f) + RowSum(c, r, f)
  }

  /** Taking in one more position in row-major order adds its term. */
  lemma RowMajorStep(cols: nat, r: nat, c: nat, f: (nat, nat) -> int)
    ensures RowMajorSum(cols, r, c + 1, f) == RowMajorSum(cols, r, c, f) + f(r, c)
  {
  }

  /** A finished row is the start of the next one. */
  lemma RowMajorNextRow(cols: nat, r: nat, f: (nat, nat) -> int)
    ensures RowMajorSum(cols, r, cols, f) == RowMajorSum(cols, r + 1, 0, f)
  {
  }

  /** The sum of f(ci, i, j) over a c-by-h-by-w block. */
  function Sum3(c: nat, h: nat, w: nat, f: (nat, nat, nat) -> int): int
  {
    Sum(c, (ci: nat) => GridSum(h, w, Slice(f, ci)))
  }

  /** The block f(ci, _, _) at a fixed first index. */
  function Slice(f: (nat, nat, nat) -> int, ci: nat): (nat, nat) -> int
  {
    (i: nat, j: nat) => f(ci, i, j)
  }

  lemma GridSumExt(rows: nat, cols: nat, f: (nat, nat) -> int, g: (nat, nat) -> int)
    requires forall r: nat, c: nat :: r < rows && c < cols ==> f(r, c) == g(r, c)
    ensures GridSum(rows, cols, f) == GridSum(rows, cols, g)
  {
    forall r: nat | r < rows
      ensures RowSum(cols, r, f) == RowSum(cols, r, g)
    {
      SumExt(cols, (k: nat) => f(r, k), (k: nat) => g(r, k));
    }
    SumExt(rows, (r: nat) => RowSum(cols, r, f), (r: nat) => RowSum(cols, r, g));
  }

  lemma Sum3Ext(c: nat, h: nat, w: nat, f: (nat, nat, nat) -> int, g: (nat, nat, nat) -> int)
    requires forall ci: nat, i: nat, j: nat :: ci < c && i < h && j < w ==> f(ci, i, j) == g(ci, i, j)
    ensures Sum3(c, h, w, f) == Sum3(c, h, w, g)
  {
    forall ci: nat | ci < c
      ensures GridSum(h, w, Slice(f, ci)) == GridSum(h, w, Slice(g, ci))
    {
      GridSumExt(h, w, Slice(f, ci), Slice(g, ci));
    }
    SumExt(c, (ci: nat) => GridSum(h, w, Slice(f, ci)), (ci: nat) => GridSum(h, w, Slice(g, ci)));
  }

  lemma RowSumZero(cols: nat, r: nat, f: (nat, nat) -> int)
    requires forall c: nat :: c < cols ==> f(r, c) == 0
    ensures RowSum(cols, r, f) == 0
  {
    SumZero(cols, (k: nat) => f(r, k));
  }

  lemma RowSumAdd(cols: nat, r: nat, f: (nat, nat) -> int, g: (nat, nat) -> int, h: (nat, nat) -> int)
    requires forall c: nat :: c < cols ==> h(r, c) == f(r, c) + g(r, c)
    ensures RowSum(cols, r, h) == RowSum(cols, r, f) + RowSum(cols, r, g)
  {
    SumAdd(cols, (k: nat) => f(r, k), (k: nat) => g(r, k), (k: nat) => h(r, k));
  }

  lemma RowSumScale(cols: nat, r: nat, a: int, f: (nat, nat) -> int, h: (nat, nat) -> int)
    requires forall c: nat :: c < cols ==> h(r, c) == a * f(r, c)
    ensures RowSum(cols, r, h) == a * RowSum(cols, r, f)
  {
    SumScale(cols, a, (k: nat) => f(r, k), (k: nat) => h(r, k));
  }

  lemma GridSumZero(rows: nat, cols: nat, f: (nat, nat) -> int)
    requires forall r: nat, c: nat :: r < rows && c < cols ==> f(r, c) == 0
    ensures GridSum(rows, cols, f) == 0
  {
    forall r: nat | r < rows
      ensures RowSum(cols, r, f) == 0
    {
      RowSumZero(cols, r, f);
    }
    SumZero(rows, (r: nat) => RowSum(cols, r, f));
  }

  lemma GridSumAdd(rows: nat, cols: nat, f: (nat, nat) -> int, g: (nat, nat) -> int, h: (nat, nat) -> int)
    requires forall r: nat, c: nat :: r < rows && c < cols ==> h(r, c) == f(r, c) + g(r, c)
    ensures GridSum(rows, cols, h) == GridSum(rows, cols, f) + GridSum(rows, cols, g)
  {
    forall r: nat | r < rows
      ensures RowSum(cols, r, h) == RowSum(cols, r, f) + RowSum(cols, r, g)
    {
      RowSumAdd(cols, r, f, g, h);
    }
    SumAdd(rows, (r: nat) => RowSum(cols, r, f), (r: nat) => RowSum(cols, r, g), (r: nat) => RowSum(cols, r, h));
  }

  lemma GridSumScale(rows: nat, cols: nat, a: int, f: (nat, nat) -> int, h: (nat, nat) -> int)
    requires forall r: nat, c: nat :: r < rows && c < cols ==> h(r, c) == a * f(r, c)
    ensures GridSum(rows, cols, h) == a * GridSum(rows, cols, f)
  {
    forall r: nat | r < rows
      ensures RowSum(cols, r, h) == a * RowSum(cols, r, f)
    {
      RowSumScale(cols, r, a, f, h);
    }
    SumScale(rows, a, (r: nat) => RowSum(cols, r, f), (r: nat) => RowSum(cols, r, h));
  }

  lemma Sum3Zero(c: nat, h: nat, w: nat, f: (nat, nat, nat) -> int)
    requires forall ci: nat, i: nat, j: nat :: ci < c && i < h && j < w ==> f(ci, i, j) == 0
    ensures Sum3(c, h, w, f) == 0
  {
    forall ci: nat | ci < c
      ensures GridSum(h, w, Slice(f, ci)) == 0
    {
      GridSumZero(h, w, Slice(f, ci));
    }
    SumZero(c, (ci: nat) => GridSum(h, w, Slice(f, ci)));
  }

  lemma Sum3Add(c: nat, h: nat, w: nat, f: (nat, nat, nat) -> int, g: (nat, nat, nat) -> int, s: (nat, nat, nat) -> int)
    requires forall ci: nat, i: nat, j: nat :: ci < c && i < h && j < w ==> s(ci, i, j) == f(ci, i, j) + g(ci, i, j)
    ensures Sum3(c, h, w, s) == Sum3(c, h, w, f) + Sum3(c, h, w, g)
  {
    forall ci: nat | ci < c
      ensures GridSum(h, w, Slice(s, ci)) == GridSum(h, w, Slice(f, ci)) + GridSum(h, w, Slice(g, ci))
    {
      GridSumAdd(h, w, Slice(f, ci), Slice(g, ci), Slice(s, ci));
    }
    SumAdd(c, (ci: nat) => GridSum(h, w, Slice(f, ci)), (ci: nat) => GridSum(h, w, Slice(g, ci)),
      (ci: nat) => GridSum(h, w, Slice(s, ci)));
  }

  lemma Sum3Scale(c: nat, h: nat, w: nat, a: int, f: (nat, nat, nat) -> int, s: (nat, nat, nat) -> int)
    requires forall ci: nat, i: nat, j: nat :: ci < c && i < h && j < w ==> s(ci, i, j) == a * f(ci, i, j)
    ensures Sum3(c, h, w, s) == a * Sum3(c, h, w, f)
  {
    forall ci: nat | ci < c
      ensures GridSum(h, w, Slice(s, ci)) == a * GridSum(h, w, Slice(f, ci))
    {
      GridSumScale(h, w, a, Slice(f, ci), Slice(s, ci));
    }
    SumScale(c, a, (ci: nat) => GridSum(h, w, Slice(f, ci)), (ci: nat) => GridSum(h, w, Slice(s, ci)));
  }

  /** Block sums of different extents agree when every slice does. */
  lemma Sum3Resize(c: nat, h1: nat, w1: nat, h2: nat, w2: nat, f1: (nat, nat, nat) -> int, f2: (nat, nat, nat) -> int)
    requires forall ci: nat :: ci < c ==> GridSum(h1, w1, Slice(f1, ci)) == GridSum(h2, w2, Slice(f2, ci))
    ensures Sum3(c, h1, w1, f1) == Sum3(c, h2, w2, f2)
  {
    SumExt(c, (ci: nat) => GridSum(h1, w1, Slice(f1, ci)), (ci: nat) => GridSum(h2, w2, Slice(f2, ci)));
  }

  /** The sums over a < c of f(a, i, j), as a grid. */
  function Deep(c: nat, f: (nat, nat, nat) -> int): (nat, nat) -> int
  {
    (i: nat, j: nat) => Sum(c, (a: nat) => f(a, i, j))
  }

  /** A block sum may take its first index innermost. */
  lemma {:induction false} Sum3Rotate(c: nat, h: nat, w: nat, f: (nat, nat, nat) -> int)
    ensures Sum3(c, h, w, f) == GridSum(h, w, Deep(c, f))
  {
    if c == 0 {
      GridSumZero(h, w, Deep(c, f));
    } else {
      Sum3Rotate(c - 1, h, w, f);
      GridSumAdd(h, w, Deep(c - 1, f), Slice(f, c - 1), Deep(c, f));
    }
  }

  // Moving a sum across a block sum: the summands are functions of five
  // indices, two (Y, X) for the outer grid and three for the block.

  /** The block f(Y, X, _, _, _) at a fixed grid position. */
  function Pin(f: (nat, nat, nat, nat, nat) -> int, Y: nat, X: nat): (nat, nat, nat) -> int
  {
    (ci: nat, i: nat, j: nat) => f(Y, X, ci, i, j)
  }

  /** The grid f(_, _, ci, i, j) at a fixed block position. */
  function Pin3(f: (nat, nat, nat, nat, nat) -> int, ci: nat, i: nat, j: nat): (nat, nat) -> int
  {
    (Y: nat, X: nat) => f(Y, X, ci, i, j)
  }

  /** The block sums, as a grid. */
  function Outer(c: nat, h: nat, w: nat, f: (nat, nat, nat, nat, nat) -> int): (nat, nat) -> int
  {
    (Y: nat, X: nat) => Sum3(c, h, w, Pin(f, Y, X))
  }

  /** The sums along row r of the grid, as a block. */
  function RowAcross(cols: nat, r: nat, f: (nat, nat, nat, nat, nat) -> int): (nat, nat, nat) -> int
  {
    (ci: nat, i: nat, j: nat) => RowSum(cols, r, Pin3(f, ci, i, j))
  }

  /** The sums over the grid, as a block. */
  function Across(rows: nat, cols: nat, f: (nat, nat, nat, nat, nat) -> int): (nat, nat, nat) -> int
  {
    (ci: nat, i: nat, j: nat) => GridSum(rows, cols, Pin3(f, ci, i, j))
  }

  lemma {:induction false} RowSum3Swap(cols: nat, r: nat, c: nat, h: nat, w: nat, f: (nat, nat, nat, nat, nat) -> int)
    ensures RowSum(cols, r, Outer(c, h, w, f)) == Sum3(c, h, w, RowAcross(cols, r, f))
  {
    if cols == 0 {
      Sum3Zero(c, h, w, RowAcross(cols, r, f));
    } else {
      RowSum3Swap(cols - 1, r, c, h, w, f);
      Sum3Add(c, h, w, RowAcross(cols - 1, r, f), Pin(f, r, cols - 1), RowAcross(cols, r, f));
    }
  }

  /** A grid of block sums is the block of grid sums. */
  lemma {:induction false} GridSum3Swap(rows: nat, cols: nat, c: nat, h: nat, w: nat, f: (nat, nat, nat, nat, nat) -> int)
    ensures GridSum(rows, cols, Outer(c, h, w, f)) == Sum3(c, h, w, Across(rows, cols, f))
  {
    if rows == 0 {
      Sum3Zero(c, h, w, Across(rows, cols, f));
    } else {
      GridSum3Swap(rows - 1, cols, c, h, w, f);
      RowSum3Swap(cols, rows - 1, c, h, w, f);
      Sum3Add(c, h, w, Across(rows - 1, cols, f), RowAcross(cols, rows - 1, f), Across(rows, cols, f));
    }
  }

  /** The block f(a, _, _, _) for a fixed first index. */
  function Fix(f: (nat, nat, nat, nat) -> int, a: nat): (nat, nat, nat) -> int
  {
    (ci: nat, i: nat, j: nat) => f(a, ci, i, j)
  }

  /** The sums over a < n of f(a, ci, i, j), as a block. */
  function Deep3(n: nat, f: (nat, nat, nat, nat) -> int): (nat, nat, nat) -> int
  {
    (ci: nat, i: nat, j: nat) => Sum(n, (a: nat) => f(a, ci, i, j))
  }

  /** A sum of block sums is the block sum of the sums. */
  lemma {:induction false} SumSum3Swap(n: nat, c: nat, h: nat, w: nat, f: (nat, nat, nat, nat) -> int)
    ensures Sum(n, (a: nat) => Sum3(c, h, w, Fix(f, a))) == Sum3(c, h, w, Deep3(n, f))
  {
    if n == 0 {
      Sum3Zero(c, h, w, Deep3(n, f));
    } else {
      SumSum3Swap(n - 1, c, h, w, f);
      Sum3Add(c, h, w, Deep3(n - 1, f), Fix(f, n - 1), Deep3(n, f));
    }
  }

  /** A row sum over a window W wide is the sum over a whole row M wide of a
      u that holds the window's terms from column X on and vanishes outside
      them. */
  lemma {:induction false} RowShift(W: nat, M: nat, X: nat, i: nat, r: nat, f: (nat, nat) -> int, u: (nat, nat) -> int)
    requires X + W <= M
    requires forall j: nat :: j < W ==> f(i, j) == u(r, X + j)
    requires forall xx: nat :: xx < M && !(X <= xx < X + W) ==> u(r, xx) == 0
    ensures RowSum(W, i, f) == RowSum(M, r, u)
  {
    if M > X + W {
      RowShift(W, M - 1, X, i, r, f, u);
    } else if W == 0 {
      RowSumZero(M, r, u);
    } else {
      RowShift(W - 1, M - 1, X, i, r, f, u);
    }
  }

  /** The same for a window H by W placed at (Y, X) in an N-by-M grid. */
  lemma {:induction false} GridShift(H: nat, W: nat, N: nat, M: nat, Y: nat, X: nat, f: (nat, nat) -> int, u: (nat, nat) -> int)
    requires Y + H <= N && X + W <= M
    requires forall i: nat, j: nat :: i < H && j < W ==> f(i, j) == u(Y + i, X + j)
    requires forall y: nat, xx: nat :: y < N && xx < M && !(Y <= y < Y + H && X <= xx < X + W) ==> u(y, xx) == 0
    ensures GridSum(H, W, f) == GridSum(N, M, u)
  {
    if N > Y + H {
      GridShift(H, W, N - 1, M, Y, X, f, u);
      RowSumZero(M, N - 1, u);
    } else if H == 0 {
      GridSumZero(N, M, u);
    } else {
      GridShift(H - 1, W, N - 1, M, Y, X, f, u);
      RowShift(W, M, X, H - 1, N - 1, f, u);
    }
  }

  /** The dot product of two vectors of one length, accumulated left to right. */
  function DotVec(u: seq<int>, v: seq<int>): int
    requires |u| == |v|
  {
    if |u| == 0 then 0 else DotVec(u[..|u| - 1], v[..|v| - 1]) + u[|u| - 1] * v[|u| - 1]
  }

  lemma {:induction false} DotVecIsSum(u: seq<int>, v: seq<int>)
    requires |u| == |v|
    ensures DotVec(u, v) == Sum(|u|, (i: nat) => if i < |u| && i < |v| then u[i] * v[i] else 0)
  {
    if |u| > 0 {
      var n := |u| - 1;
      DotVecIsSum(u[..n], v[..n]);
      SumExt(n, (i: nat) => if i < |u[..n]| && i < |v[..n]| then u[..n][i] * v[..n][i] else 0,
                (i: nat) => if i < |u| && i < |v| then u[i] * v[i] else 0);
    }
  }

  /** The dot product of two concatenations splits at the seam. */
  lemma {:induction false} DotVecAppend(a: seq<int>, b: seq<int>, c: seq<int>, d: seq<int>)
    requires |a| == |c| && |b| == |d|
    ensures DotVec(a + b, c + d) == DotVec(a, c) + DotVec(b, d)
  {
    if |b| > 0 {
      var k := |b| - 1;
      assert (a + b)[..|a + b| - 1] == a + b[..k];
      assert (c + d)[..|c + d| - 1] == c + d[..k];
      DotVecAppend(a, b[..k], c, d[..k]);
    } else {
      assert a + b == a;
      assert c + d == c;
    }
  }

  /** Dot products agree when their terms agree one by one. */
  lemma DotVecPointwise(a: seq<int>, b: seq<int>, c: seq<int>, d: seq<int>)
    requires |a| == |b| == |c| == |d|
    requires forall i :: 0 <= i < |a| ==> a[i] * b[i] == c[i] * d[i]
    ensures DotVec(a, b) == DotVec(c, d)
  {
    DotVecIsSum(a, b);
    DotVecIsSum(c, d);
    SumExt(|a|, (i: nat) => if i < |a| && i < |b| then a[i] * b[i] else 0,
                (i: nat) => if i < |c| && i < |d| then c[i] * d[i] else 0);
  }

  // Integer arithmetic steps, kept as lemmas so that large proof contexts
  // need not rediscover them.

  lemma Commute(x: int, y: int)
    ensures x * y == y * x
  {
  }

  lemma Regroup(a: int, b: int, c: int)
    ensures a * (b * c) == (a * b) * c
  {
  }

  lemma MulCancel(k: int, a: int, b: int)
    requires k > 0 && k * a == k * b
    ensures a == b
  {
  }

  lemma MultipleDivides(k: int, a: nat)
    requires k > 0
    ensures (k * a) % k == 0 && (k * a) / k == a
  {
    var q, r := (k * a) / k, (k * a) % k;
    assert k * a == k * q + r && 0 <= r < k;
    assert k * (a - q) == r;
    if a - q >= 1 {
    } else if a - q <= -1 {
    }
  }

  lemma Rearrange(x: int, y: int, z: int)
    ensures x * (y * z) == y * (x * z)
  {
  }
}
