/** The direct 2-D convolution (tinygrad/ops.py:97-126): a kernel of shape
    (cout, cin, H, W) slides over every position of an input of shape
    (bs, cin, h, w) with stride 1 and no padding.

    Forward visits the output positions (Y, X) row by row; at each one it
    flattens the input window of every batch entry and takes its dot product
    with every flattened kernel. Backward starts dx and dw at zero and, at
    every output position, adds that position's contribution to both. */
module Conv2DOp {
  import opened Sums
  import opened Tensors
  import ReshapeOp

  datatype ConvContext = ConvContext(x: Tensor4, w: Tensor4)

  // ---------------------------------------------------------------------
  // Flattening, as reshape(rows, -1) lays out each row

  /** The entries f(r, 0), ..., f(r, w - 1) of row r. */
  function Row(w: nat, r: nat, f: (nat, nat) -> int): (s: seq<int>)
    ensures |s| == w && forall j :: 0 <= j < w ==> s[j] == f(r, j)
  {
    seq(w, j requires 0 <= j < w => f(r, j))
  }

  /** The entries f(i, j) of an h-by-w block in row-major order. */
  function Flatten2(h: nat, w: nat, f: (nat, nat) -> int): (s: seq<int>)
    ensures |s| == h * w
  {
    if h == 0 then [] else Flatten2(h - 1, w, f) + Row(w, h - 1, f)
  }

  /** The entries f(ci, i, j) of a c-by-h-by-w block in row-major order. */
  function Flatten3(c: nat, h: nat, w: nat, f: (nat, nat, nat) -> int): (s: seq<int>)
    ensures |s| == c * (h * w)
  {
    if c == 0 then [] else Flatten3(c - 1, h, w, f) + Flatten2(h, w, Slice(f, c - 1))
  }

  /** The dot product of two flattened blocks is the sum over the block of
      the products of their entries. */
  lemma {:induction false} DotFlatten2(h: nat, w: nat, f: (nat, nat) -> int, g: (nat, nat) -> int, p: (nat, nat) -> int)
    requires forall i: nat, j: nat :: p(i, j) == f(i, j) * g(i, j)
    ensures DotVec(Flatten2(h, w, f), Flatten2(h, w, g)) == GridSum(h, w, p)
  {
    if h > 0 {
      DotFlatten2(h - 1, w, f, g, p);
      DotRow(w, h - 1, f, g, p);
      DotSplit(Flatten2(h, w, f), Flatten2(h, w, g), Flatten2(h - 1, w, f), Row(w, h - 1, f), Flatten2(h - 1, w, g), Row(w, h - 1, g));
    }
  }

  lemma DotRow(w: nat, r: nat, f: (nat, nat) -> int, g: (nat, nat) -> int, p: (nat, nat) -> int)
    requires forall j: nat :: p(r, j) == f(r, j) * g(r, j)
    ensures DotVec(Row(w, r, f), Row(w, r, g)) == RowSum(w, r, p)
  {
    var rf, rg := Row(w, r, f), Row(w, r, g);
    DotVecIsSum(rf, rg);
    SumExt(w, (j: nat) => if j < |rf| && j < |rg| then rf[j] * rg[j] else 0, (k: nat) => p(r, k));
  }

  lemma {:induction false} DotFlatten3(c: nat, h: nat, w: nat, f: (nat, nat, nat) -> int, g: (nat, nat, nat) -> int, p: (nat, nat, nat) -> int)
    requires forall ci: nat, i: nat, j: nat :: p(ci, i, j) == f(ci, i, j) * g(ci, i, j)
    ensures DotVec(Flatten3(c, h, w, f), Flatten3(c, h, w, g)) == Sum3(c, h, w, p)
  {
    if c > 0 {
      var bf, bg := Slice(f, c - 1), Slice(g, c - 1);
      DotFlatten3(c - 1, h, w, f, g, p);
      DotFlatten2(h, w, bf, bg, Slice(p, c - 1));
      DotSplit(Flatten3(c, h, w, f), Flatten3(c, h, w, g),
        Flatten3(c - 1, h, w, f), Flatten2(h, w, bf), Flatten3(c - 1, h, w, g), Flatten2(h, w, bg));
    }
  }

  /** The dot product of two concatenations, split at equal lengths. */
  lemma DotSplit(u: seq<int>, v: seq<int>, a: seq<int>, b: seq<int>, c: seq<int>, d: seq<int>)
    requires u == a + b && v == c + d && |a| == |c| && |b| == |d|
    ensures DotVec(u, v) == DotVec(a, c) + DotVec(b, d)
  {
    DotVecAppend(a, b, c, d);
  }

  // ---------------------------------------------------------------------
  // Forward

  /** The input window of batch entry b whose top-left corner is (Y, X). */
  function WindowOf(x: Tensor4, b: nat, Y: nat, X: nat): (nat, nat, nat) -> int
  {
    (ci: nat, i: nat, j: nat) => x.At(b, ci, Y + i, X + j)
  }

  /** Kernel co. */
  function KernelOf(w: Tensor4, co: nat): (nat, nat, nat) -> int
  {
    (ci: nat, i: nat, j: nat) => w.At(co, ci, i, j)
  }

  /** The products of the window entries with the kernel entries they meet. */
  function Taps(x: Tensor4, w: Tensor4, b: nat, co: nat, Y: nat, X: nat): (nat, nat, nat) -> int
  {
    (ci: nat, i: nat, j: nat) => x.At(b, ci, Y + i, X + j) * w.At(co, ci, i, j)
  }

  /** Output entry [b, co, Y, X]: the sum over ci, i, j of
      x[b, ci, Y + i, X + j] * w[co, ci, i, j]. */
  function ConvAt(x: Tensor4, w: Tensor4, b: nat, co: nat, Y: nat, X: nat): int
  {
    Sum3(w.c, w.h, w.w, Taps(x, w, b, co, Y, X))
  }

  /** The convolution of x by w, of shape (bs, cout, h - H + 1, w - W + 1). */
  function Conv(x: Tensor4, w: Tensor4): (r: Tensor4)
    requires w.h <= x.h + 1 && w.w <= x.w + 1
    ensures r.Valid() && r.n == x.n && r.c == w.n && r.h == x.h - w.h + 1 && r.w == x.w - w.w + 1
    ensures forall b: nat, co: nat, Y: nat, X: nat :: r.InBounds(b, co, Y, X) ==> r.At(b, co, Y, X) == ConvAt(x, w, b, co, Y, X)
  {
    Tensor4Of(x.n, w.n, x.h - w.h + 1, x.w - w.w + 1, (b: nat, co: nat, Y: nat, X: nat) => ConvAt(x, w, b, co, Y, X))
  }

  /** Why numpy refuses to convolve x by w, if it does:
      - w.reshape(cout, -1) with cout == 0 is ambiguous;
      - a kernel taller or wider than the input plus one makes np.zeros ask
        for a negative output size;
      - when there is at least one output position, the window reshape
        (bs, -1) with bs == 0 is ambiguous, and the window and kernel rows
        must be equally long for the dot product. */
  function ConvRefusal(x: Tensor4, w: Tensor4): Option<Error>
  {
    if w.n == 0 then Some(ShapeMismatch)
    else if w.h > x.h + 1 || w.w > x.w + 1 then Some(NegativeDimension)
    else if w.h <= x.h && w.w <= x.w && (x.n == 0 || x.c * (w.h * w.w) != w.c * (w.h * w.w)) then Some(ShapeMismatch)
    else None
  }

  /** The two reshapes behind the ShapeMismatch refusals are refused exactly
      when a leading count is 0. */
  lemma ConvReshapes(x: Tensor4, w: Tensor4)
    ensures var kernelRow: nat, windowRow: nat := w.c * KernelArea(w), x.c * KernelArea(w);
      && (ReshapeOp.ResolveShape(w.n * kernelRow, [w.n as int, -1]).Err? <==> w.n == 0)
      && (ReshapeOp.ResolveShape(x.n * windowRow, [x.n as int, -1]).Err? <==> x.n == 0)
  {
    ReshapeOp.ReshapeToRows(w.n, w.c * KernelArea(w));
    ReshapeOp.ReshapeToRows(x.n, x.c * KernelArea(w));
  }

  /** H * W: the cells of one kernel plane. */
  function KernelArea(w: Tensor4): nat
  {
    w.h * w.w
  }

  /** The flattened window of batch entry b at (Y, X): row b of
      x[:, :, Y:Y+H, X:X+W].reshape(bs, -1). */
  function Window(x: Tensor4, H: nat, W: nat, b: nat, Y: nat, X: nat): (s: seq<int>)
    ensures |s| == x.c * (H * W)
  {
    Flatten3(x.c, H, W, WindowOf(x, b, Y, X))
  }

  /** The flattened kernel co: column co of w.reshape(cout, -1).T. */
  function Kernel(w: Tensor4, co: nat): (s: seq<int>)
    ensures |s| == w.c * (w.h * w.w)
  {
    Flatten3(w.c, w.h, w.w, KernelOf(w, co))
  }

  /** Dotting the flattened window with the flattened kernel computes the
      output entry, whenever the two are equally long. */
  lemma WindowDot(x: Tensor4, w: Tensor4, b: nat, co: nat, Y: nat, X: nat)
    requires x.c * (w.h * w.w) == w.c * (w.h * w.w)
    ensures DotVec(Window(x, w.h, w.w, b, Y, X), Kernel(w, co)) == ConvAt(x, w, b, co, Y, X)
  {
    var win := WindowOf(x, b, Y, X);
    if w.h * w.w > 0 {
      MulCancel(w.h * w.w, x.c, w.c);
    }
    assert Window(x, w.h, w.w, b, Y, X) == Flatten3(w.c, w.h, w.w, win);
    DotFlatten3(w.c, w.h, w.w, win, KernelOf(w, co), Taps(x, w, b, co, Y, X));
  }

  /** Conv2D.forward: the output and the context holding both operands, or
      the reason numpy refuses. */
  method ConvForward(x: Tensor4, w: Tensor4) returns (r: Result<(Tensor4, ConvContext)>)
    requires x.Valid() && w.Valid()
    ensures r.Err? <==> ConvRefusal(x, w).Some?
    ensures r.Err? ==> r.error == ConvRefusal(x, w).value
    ensures r.Ok? ==> r.value == (Conv(x, w), ConvContext(x, w))
  {
    if ConvRefusal(x, w).Some? {
      return Err(ConvRefusal(x, w).value);
    }
    var ret := SlideKernel(x, w);
    var out := Freeze(ret);
    Tensor4Ext(out, Conv(x, w));
    return Ok((out, ConvContext(x, w)));
  }

  /** The loop of Conv2D.forward: ret starts at zero, and at each output
      position (Y, X), in row-major order, ret[:, :, Y, X] receives the
      flattened windows dotted with the flattened kernels. */
  method SlideKernel(x: Tensor4, w: Tensor4) returns (ret: array4<int>)
    requires w.h <= x.h + 1 && w.w <= x.w + 1
    requires w.h <= x.h && w.w <= x.w ==> x.c * KernelArea(w) == w.c * KernelArea(w)
    ensures fresh(ret)
    ensures ret.Length0 == x.n && ret.Length1 == w.n && ret.Length2 == x.h + 1 - w.h && ret.Length3 == x.w + 1 - w.w
    ensures forall b, co, Y, X :: 0 <= b < ret.Length0 && 0 <= co < ret.Length1 && 0 <= Y < ret.Length2 && 0 <= X < ret.Length3 ==>
      ret[b, co, Y, X] == ConvAt(x, w, b, co, Y, X)
  {
    var oy, ox := x.h + 1 - w.h, x.w + 1 - w.w;
    ret := new int[x.n, w.n, oy, ox]((b, co, Y, X) => 0);
    for Y := 0 to oy
      invariant ConvSoFar(ret, x, w, Y, 0)
    {
      for X := 0 to ox
        invariant ConvSoFar(ret, x, w, Y, X)
      {
        FillPosition(ret, x, w, Y, X);
      }
      assert ConvSoFar(ret, x, w, Y + 1, 0);
    }
  }

  /** ret holds the convolution at every output position before (Y, X) in
      row-major order. */
  ghost predicate ConvSoFar(ret: array4<int>, x: Tensor4, w: Tensor4, Y: nat, X: nat)
    reads ret
  {
    && ret.Length0 == x.n && ret.Length1 == w.n && ret.Length2 == x.h + 1 - w.h && ret.Length3 == x.w + 1 - w.w
    && forall b, co, Y', X' ::
      0 <= b < ret.Length0 && 0 <= co < ret.Length1 && 0 <= Y' < ret.Length2 && 0 <= X' < ret.Length3 && (Y' < Y || (Y' == Y && X' < X)) ==>
      ret[b, co, Y', X'] == ConvAt(x, w, b, co, Y', X')
  }

  /** ret[:, :, Y, X] = tx.dot(tw): every batch entry's flattened window
      dotted with every flattened kernel. */
  method FillPosition(ret: array4<int>, x: Tensor4, w: Tensor4, Y: nat, X: nat)
    requires ConvSoFar(ret, x, w, Y, X) && Y < ret.Length2 && X < ret.Length3
    requires x.c * KernelArea(w) == w.c * KernelArea(w)
    modifies ret
    ensures ConvSoFar(ret, x, w, Y, X + 1)
    ensures forall b, co, Y', X' ::
      0 <= b < ret.Length0 && 0 <= co < ret.Length1 && 0 <= Y' < ret.Length2 && 0 <= X' < ret.Length3 && (Y' != Y || X' != X) ==>
      ret[b, co, Y', X'] == old(ret[b, co, Y', X'])
  {
    forall b, co | 0 <= b < x.n && 0 <= co < w.n {
      ret[b, co, Y, X] := DotVec(Window(x, w.h, w.w, b, Y, X), Kernel(w, co));
    }
    forall b, co | 0 <= b < x.n && 0 <= co < w.n
      ensures ret[b, co, Y, X] == ConvAt(x, w, b, co, Y, X)
    {
      WindowDot(x, w, b, co, Y, X);
    }
  }

  // ---------------------------------------------------------------------
  // Backward

  /** Entry [co, ci, i, j] of gg.T.dot(tx) at output position (Y, X): the
      sum over the batch of g[b, co, Y, X] * x[b, ci, Y + i, X + j]. */
  function WeightStep(x: Tensor4, g: Tensor4, Y: nat, X: nat, co: nat, ci: nat, i: nat, j: nat): int
  {
    Sum(g.n, (b: nat) => g.At(b, co, Y, X) * x.At(b, ci, Y + i, X + j))
  }

  function WeightSteps(x: Tensor4, g: Tensor4, co: nat, ci: nat, i: nat, j: nat): (nat, nat) -> int
  {
    (Y: nat, X: nat) => WeightStep(x, g, Y, X, co, ci, i, j)
  }

  /** The weight gradient: the contributions of all output positions. */
  function WeightGrad(x: Tensor4, w: Tensor4, g: Tensor4): (r: Tensor4)
    ensures r.Valid() && r.n == w.n && r.c == w.c && r.h == w.h && r.w == w.w
    ensures forall co: nat, ci: nat, i: nat, j: nat :: r.InBounds(co, ci, i, j) ==>
      r.At(co, ci, i, j) == GridSum(g.h, g.w, WeightSteps(x, g, co, ci, i, j))
  {
    Tensor4Of(w.n, w.c, w.h, w.w, (co: nat, ci: nat, i: nat, j: nat) => GridSum(g.h, g.w, WeightSteps(x, g, co, ci, i, j)))
  }

  /** Entry [b, ci, i, j] of gg.dot(tw).reshape(bs, cin, H, W) at output
      position (Y, X): the sum over co of g[b, co, Y, X] * w[co, ci, i, j]. */
  function Spread(w: Tensor4, g: Tensor4, Y: nat, X: nat, b: nat, ci: nat, i: nat, j: nat): int
  {
    Sum(w.n, (co: nat) => g.At(b, co, Y, X) * w.At(co, ci, i, j))
  }

  /** What output position (Y, X) adds to dx[b, ci, y, xx]: its spread
      kernel entry if its window covers (y, xx), nothing otherwise. */
  function InputStep(w: Tensor4, g: Tensor4, Y: nat, X: nat, b: nat, ci: nat, y: nat, xx: nat): int
  {
    if Y <= y < Y + w.h && X <= xx < X + w.w then Spread(w, g, Y, X, b, ci, y - Y, xx - X) else 0
  }

  function InputSteps(w: Tensor4, g: Tensor4, b: nat, ci: nat, y: nat, xx: nat): (nat, nat) -> int
  {
    (Y: nat, X: nat) => InputStep(w, g, Y, X, b, ci, y, xx)
  }

  /** The input gradient: at every input cell, the contributions of all
      output positions whose window covers it, overlaps adding. */
  function InputGrad(x: Tensor4, w: Tensor4, g: Tensor4): (r: Tensor4)
    ensures r.Valid() && r.n == x.n && r.c == x.c && r.h == x.h && r.w == x.w
    ensures forall b: nat, ci: nat, y: nat, xx: nat :: r.InBounds(b, ci, y, xx) ==>
      r.At(b, ci, y, xx) == GridSum(g.h, g.w, InputSteps(w, g, b, ci, y, xx))
  {
    Tensor4Of(x.n, x.c, x.h, x.w, (b: nat, ci: nat, y: nat, xx: nat) => GridSum(g.h, g.w, InputSteps(w, g, b, ci, y, xx)))
  }

  /** Conv2D.backward: the gradients for the input and for the kernel. */
  method ConvBackward(ctx: ConvContext, grad: Tensor4) returns (dx: Tensor4, dw: Tensor4)
    requires ctx.x.Valid() && ctx.w.Valid() && ConvRefusal(ctx.x, ctx.w) == None
    requires grad.Valid() && grad.n == ctx.x.n && grad.c == ctx.w.n
    requires grad.h == ctx.x.h + 1 - ctx.w.h && grad.w == ctx.x.w + 1 - ctx.w.w
    ensures dx == InputGrad(ctx.x, ctx.w, grad)
    ensures dw == WeightGrad(ctx.x, ctx.w, grad)
  {
    var dxa, dwa := Accumulate(ctx.x, ctx.w, grad);
    InputDone(dxa, ctx.x, ctx.w, grad);
    WeightDone(dwa, ctx.x, ctx.w, grad);
    dx := Freeze(dxa);
    dw := Freeze(dwa);
    Tensor4Ext(dx, InputGrad(ctx.x, ctx.w, grad));
    Tensor4Ext(dw, WeightGrad(ctx.x, ctx.w, grad));
  }

  /** dx holds, at every input cell, the contributions of the output
      positions before (Y, X) in row-major order. */
  ghost predicate InputSoFar(dx: array4<int>, x: Tensor4, w: Tensor4, g: Tensor4, Y: nat, X: nat)
    reads dx
  {
    && dx.Length0 == x.n && dx.Length1 == x.c && dx.Length2 == x.h && dx.Length3 == x.w
    && forall b, ci, y, xx :: 0 <= b < x.n && 0 <= ci < x.c && 0 <= y < x.h && 0 <= xx < x.w ==>
      dx[b, ci, y, xx] == RowMajorSum(g.w, Y, X, InputSteps(w, g, b, ci, y, xx))
  }

  /** dw holds, at every kernel entry, the contributions of the output
      positions before (Y, X) in row-major order. */
  ghost predicate WeightSoFar(dw: array4<int>, x: Tensor4, w: Tensor4, g: Tensor4, Y: nat, X: nat)
    reads dw
  {
    && dw.Length0 == w.n && dw.Length1 == w.c && dw.Length2 == w.h && dw.Length3 == w.w
    && forall co, ci, i, j :: 0 <= co < w.n && 0 <= ci < w.c && 0 <= i < w.h && 0 <= j < w.w ==>
      dw[co, ci, i, j] == RowMajorSum(g.w, Y, X, WeightSteps(x, g, co, ci, i, j))
  }

  /** The loop of Conv2D.backward: dx and dw start at zero, and every output
      position (Y, X), in row-major order, adds its contribution to both. */
  method Accumulate(x: Tensor4, w: Tensor4, g: Tensor4) returns (dx: array4<int>, dw: array4<int>)
    requires g.h + w.h == x.h + 1 && g.w + w.w == x.w + 1
    ensures fresh(dx) && fresh(dw)
    ensures InputSoFar(dx, x, w, g, g.h, 0) && WeightSoFar(dw, x, w, g, g.h, 0)
  {
    dx, dw := ZeroGrads(x, w, g);
    for Y := 0 to g.h
      invariant InputSoFar(dx, x, w, g, Y, 0) && WeightSoFar(dw, x, w, g, Y, 0)
    {
      AccumulateRow(dx, dw, x, w, g, Y);
      InputNextRow(dx, x, w, g, Y);
      WeightNextRow(dw, x, w, g, Y);
      assert InputSoFar(dx, x, w, g, Y + 1, 0);
      assert WeightSoFar(dw, x, w, g, Y + 1, 0);
    }
  }

  /** dx = np.zeros_like(x) and dw = np.zeros_like(w): the contributions of
      no output position yet. */
  method ZeroGrads(x: Tensor4, w: Tensor4, g: Tensor4) returns (dx: array4<int>, dw: array4<int>)
    ensures fresh(dx) && fresh(dw) && dx != dw
    ensures InputSoFar(dx, x, w, g, 0, 0) && WeightSoFar(dw, x, w, g, 0, 0)
  {
    dx := new int[x.n, x.c, x.h, x.w]((b, ci, y, xx) => 0);
    dw := new int[w.n, w.c, w.h, w.w]((co, ci, i, j) => 0);
    InputStart(dx, x, w, g);
    WeightStart(dw, x, w, g);
  }

  /** One row of output positions: for X in range(ox), both steps. */
  method AccumulateRow(dx: array4<int>, dw: array4<int>, x: Tensor4, w: Tensor4, g: Tensor4, Y: nat)
    requires dx != dw && Y < g.h && g.h + w.h == x.h + 1 && g.w + w.w == x.w + 1
    requires InputSoFar(dx, x, w, g, Y, 0) && WeightSoFar(dw, x, w, g, Y, 0)
    modifies dx, dw
    ensures InputSoFar(dx, x, w, g, Y, g.w) && WeightSoFar(dw, x, w, g, Y, g.w)
  {
    for X := 0 to g.w
      invariant InputSoFar(dx, x, w, g, Y, X) && WeightSoFar(dw, x, w, g, Y, X)
    {
      AddWeightStep(dw, x, w, g, Y, X);
      AddInputStep(dx, x, w, g, Y, X);
    }
  }

  /** Freshly zeroed, dx holds the contributions of no output position. */
  lemma InputStart(dx: array4<int>, x: Tensor4, w: Tensor4, g: Tensor4)
    requires dx.Length0 == x.n && dx.Length1 == x.c && dx.Length2 == x.h && dx.Length3 == x.w
    requires forall b, ci, y, xx :: 0 <= b < x.n && 0 <= ci < x.c && 0 <= y < x.h && 0 <= xx < x.w ==> dx[b, ci, y, xx] == 0
    ensures InputSoFar(dx, x, w, g, 0, 0)
  {
  }

  /** The same for dw. */
  lemma WeightStart(dw: array4<int>, x: Tensor4, w: Tensor4, g: Tensor4)
    requires dw.Length0 == w.n && dw.Length1 == w.c && dw.Length2 == w.h && dw.Length3 == w.w
    requires forall co, ci, i, j :: 0 <= co < w.n && 0 <= ci < w.c && 0 <= i < w.h && 0 <= j < w.w ==> dw[co, ci, i, j] == 0
    ensures WeightSoFar(dw, x, w, g, 0, 0)
  {
  }

  /** A finished row of output positions leaves dx as the sums up to the
      start of the next row. */
  lemma InputNextRow(dx: array4<int>, x: Tensor4, w: Tensor4, g: Tensor4, Y: nat)
    requires InputSoFar(dx, x, w, g, Y, g.w)
    ensures InputSoFar(dx, x, w, g, Y + 1, 0)
  {
    forall b, ci, y, xx | 0 <= b < x.n && 0 <= ci < x.c && 0 <= y < x.h && 0 <= xx < x.w
      ensures dx[b, ci, y, xx] == RowMajorSum(g.w, Y + 1, 0, InputSteps(w, g, b, ci, y, xx))
    {
      RowMajorNextRow(g.w, Y, InputSteps(w, g, b, ci, y, xx));
    }
  }

  /** The same for dw. */
  lemma WeightNextRow(dw: array4<int>, x: Tensor4, w: Tensor4, g: Tensor4, Y: nat)
    requires WeightSoFar(dw, x, w, g, Y, g.w)
    ensures WeightSoFar(dw, x, w, g, Y + 1, 0)
  {
    forall co, ci, i, j | 0 <= co < w.n && 0 <= ci < w.c && 0 <= i < w.h && 0 <= j < w.w
      ensures dw[co, ci, i, j] == RowMajorSum(g.w, Y + 1, 0, WeightSteps(x, g, co, ci, i, j))
    {
      RowMajorNextRow(g.w, Y, WeightSteps(x, g, co, ci, i, j));
    }
  }

  /** After every row, dx holds the contributions of all output positions. */
  lemma InputDone(dx: array4<int>, x: Tensor4, w: Tensor4, g: Tensor4)
    requires InputSoFar(dx, x, w, g, g.h, 0)
    ensures dx.Length0 == x.n && dx.Length1 == x.c && dx.Length2 == x.h && dx.Length3 == x.w
    ensures forall b, ci, y, xx :: 0 <= b < x.n && 0 <= ci < x.c && 0 <= y < x.h && 0 <= xx < x.w ==>
      dx[b, ci, y, xx] == GridSum(g.h, g.w, InputSteps(w, g, b, ci, y, xx))
  {
    forall b, ci, y, xx | 0 <= b < x.n && 0 <= ci < x.c && 0 <= y < x.h && 0 <= xx < x.w
      ensures dx[b, ci, y, xx] == GridSum(g.h, g.w, InputSteps(w, g, b, ci, y, xx))
    {
      assert RowSum(0, g.h, InputSteps(w, g, b, ci, y, xx)) == 0;
    }
  }

  /** The same for dw. */
  lemma WeightDone(dw: array4<int>, x: Tensor4, w: Tensor4, g: Tensor4)
    requires WeightSoFar(dw, x, w, g, g.h, 0)
    ensures dw.Length0 == w.n && dw.Length1 == w.c && dw.Length2 == w.h && dw.Length3 == w.w
    ensures forall co, ci, i, j :: 0 <= co < w.n && 0 <= ci < w.c && 0 <= i < w.h && 0 <= j < w.w ==>
      dw[co, ci, i, j] == GridSum(g.h, g.w, WeightSteps(x, g, co, ci, i, j))
  {
    forall co, ci, i, j | 0 <= co < w.n && 0 <= ci < w.c && 0 <= i < w.h && 0 <= j < w.w
      ensures dw[co, ci, i, j] == GridSum(g.h, g.w, WeightSteps(x, g, co, ci, i, j))
    {
      assert RowSum(0, g.h, WeightSteps(x, g, co, ci, i, j)) == 0;
    }
  }

  /** dw += gg.T.dot(tx).reshape(dw.shape) at output position (Y, X). */
  method AddWeightStep(dw: array4<int>, x: Tensor4, w: Tensor4, g: Tensor4, Y: nat, X: nat)
    requires WeightSoFar(dw, x, w, g, Y, X)
    modifies dw
    ensures WeightSoFar(dw, x, w, g, Y, X + 1)
  {
    forall co, ci, i, j | 0 <= co < w.n && 0 <= ci < w.c && 0 <= i < w.h && 0 <= j < w.w {
      dw[co, ci, i, j] := dw[co, ci, i, j] + WeightStep(x, g, Y, X, co, ci, i, j);
    }
    forall co, ci, i, j | 0 <= co < w.n && 0 <= ci < w.c && 0 <= i < w.h && 0 <= j < w.w
      ensures dw[co, ci, i, j] == RowMajorSum(g.w, Y, X + 1, WeightSteps(x, g, co, ci, i, j))
    {
      RowMajorStep(g.w, Y, X, WeightSteps(x, g, co, ci, i, j));
    }
  }

  /** dx[:, :, Y:Y+H, X:X+W] += gg.dot(tw).reshape(bs, cin, H, W) at output
      position (Y, X). */
  method AddInputStep(dx: array4<int>, x: Tensor4, w: Tensor4, g: Tensor4, Y: nat, X: nat)
    requires Y + w.h <= x.h && X + w.w <= x.w
    requires InputSoFar(dx, x, w, g, Y, X)
    modifies dx
    ensures InputSoFar(dx, x, w, g, Y, X + 1)
  {
    forall b, ci, y, xx | 0 <= b < x.n && 0 <= ci < x.c && Y <= y < Y + w.h && X <= xx < X + w.w {
      dx[b, ci, y, xx] := dx[b, ci, y, xx] + Spread(w, g, Y, X, b, ci, y - Y, xx - X);
    }
    forall b, ci, y, xx | 0 <= b < x.n && 0 <= ci < x.c && 0 <= y < x.h && 0 <= xx < x.w
      ensures dx[b, ci, y, xx] == RowMajorSum(g.w, Y, X + 1, InputSteps(w, g, b, ci, y, xx))
    {
      RowMajorStep(g.w, Y, X, InputSteps(w, g, b, ci, y, xx));
    }
  }
}
