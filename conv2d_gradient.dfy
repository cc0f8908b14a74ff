/** Conv2D's backward pass against its forward pass (tinygrad/ops.py:97-126).

    The convolution is linear in the input and in the kernel separately, so
    its chain rule is an adjoint identity for each: the incoming gradient g
    weighted by the convolution of any d equals the gradient that backward
    returns for that operand, weighted by d. Both are proved by writing the
    two sides as one seven-fold sum over (batch, output channel, output
    position, input channel, kernel position) and exchanging the order of
    summation. */
module Conv2DGradient {
  import opened Sums
  import opened Tensors
  import opened Conv2DOp

  /** A term of <g, Conv(x, e)>: g[b, co, Y, X] * x[b, ci, Y + i, X + j] * e[co, ci, i, j]. */
  function Term(x: Tensor4, e: Tensor4, g: Tensor4, co: nat, b: nat, Y: nat, X: nat, ci: nat, i: nat, j: nat): int
  {
    g.At(b, co, Y, X) * (x.At(b, ci, Y + i, X + j) * e.At(co, ci, i, j))
  }

  /** The terms of batch entry b and output channel co, indexed by output
      position and kernel position. */
  function Terms(x: Tensor4, e: Tensor4, g: Tensor4, co: nat, b: nat): (nat, nat, nat, nat, nat) -> int
  {
    (Y: nat, X: nat, ci: nat, i: nat, j: nat) => Term(x, e, g, co, b, Y, X, ci, i, j)
  }

  /** Output entry [b, co, Y, X], weighted by g, as a block sum of its terms. */
  lemma OutputEntry(x: Tensor4, e: Tensor4, g: Tensor4, b: nat, co: nat, Y: nat, X: nat)
    ensures g.At(b, co, Y, X) * ConvAt(x, e, b, co, Y, X) == Sum3(e.c, e.h, e.w, Pin(Terms(x, e, g, co, b), Y, X))
  {
    var terms, taps, k := Pin(Terms(x, e, g, co, b), Y, X), Taps(x, e, b, co, Y, X), g.At(b, co, Y, X);
    forall ci: nat, i: nat, j: nat | ci < e.c && i < e.h && j < e.w
      ensures terms(ci, i, j) == k * taps(ci, i, j)
    {
    }
    Sum3Scale(e.c, e.h, e.w, k, taps, terms);
  }

  // ---------------------------------------------------------------------
  // The kernel direction

  /** For output channel co: the sum over output positions of the terms of
      batch entry b at kernel position (ci, i, j). */
  function KernelGrid(x: Tensor4, e: Tensor4, g: Tensor4, co: nat): (nat, nat, nat, nat) -> int
  {
    (b: nat, ci: nat, i: nat, j: nat) => GridSum(g.h, g.w, Pin3(Terms(x, e, g, co, b), ci, i, j))
  }

  /** For kernel entry (co, ci, i, j): its terms, indexed by batch entry and
      output position. */
  function KernelSpread(x: Tensor4, e: Tensor4, g: Tensor4, co: nat, ci: nat, i: nat, j: nat): (nat, nat, nat) -> int
  {
    (b: nat, Y: nat, X: nat) => Term(x, e, g, co, b, Y, X, ci, i, j)
  }

  /** Plane (b, co) of <g, Conv(x, e)>, summed over the output positions
      innermost. */
  lemma KernelPlane(x: Tensor4, e: Tensor4, g: Tensor4, b: nat, co: nat)
    requires e.h <= x.h + 1 && e.w <= x.w + 1
    requires b < x.n && co < e.n && g.h == x.h + 1 - e.h && g.w == x.w + 1 - e.w
    ensures InnerPlane(g, Conv(x, e), b, co) == Sum3(e.c, e.h, e.w, Fix(KernelGrid(x, e, g, co), b))
  {
    var terms := Terms(x, e, g, co, b);
    forall Y: nat, X: nat | Y < g.h && X < g.w
      ensures g.At(b, co, Y, X) * Conv(x, e).At(b, co, Y, X) == Outer(e.c, e.h, e.w, terms)(Y, X)
    {
      OutputEntry(x, e, g, b, co, Y, X);
    }
    InnerPlaneGrid(g, Conv(x, e), b, co, Outer(e.c, e.h, e.w, terms));
    GridSum3Swap(g.h, g.w, e.c, e.h, e.w, terms);
    Sum3Ext(e.c, e.h, e.w, Across(g.h, g.w, terms), Fix(KernelGrid(x, e, g, co), b));
  }

  /** One output position's share of dw[co, ci, i, j], weighted by e[co, ci, i, j]. */
  lemma KernelStep(x: Tensor4, e: Tensor4, g: Tensor4, co: nat, ci: nat, i: nat, j: nat, Y: nat, X: nat)
    ensures Deep(g.n, KernelSpread(x, e, g, co, ci, i, j))(Y, X) == e.At(co, ci, i, j) * WeightSteps(x, g, co, ci, i, j)(Y, X)
  {
    var f := KernelSpread(x, e, g, co, ci, i, j);
    var k := e.At(co, ci, i, j);
    forall b: nat | b < g.n
      ensures f(b, Y, X) == k * (g.At(b, co, Y, X) * x.At(b, ci, Y + i, X + j))
    {
      var p, q := g.At(b, co, Y, X), x.At(b, ci, Y + i, X + j);
      assert p * (q * k) == k * (p * q);
    }
    SumScale(g.n, k, (b: nat) => g.At(b, co, Y, X) * x.At(b, ci, Y + i, X + j), (a: nat) => f(a, Y, X));
  }

  /** Kernel entry (co, ci, i, j) of the batch sum of the kernel grids: its
      terms summed over the batch innermost. */
  lemma KernelBatches(x: Tensor4, e: Tensor4, g: Tensor4, co: nat, ci: nat, i: nat, j: nat)
    ensures Deep3(g.n, KernelGrid(x, e, g, co))(ci, i, j) == GridSum(g.h, g.w, Deep(g.n, KernelSpread(x, e, g, co, ci, i, j)))
  {
    var f := KernelSpread(x, e, g, co, ci, i, j);
    var gh, gw := g.h, g.w;
    forall b: nat | b < g.n
      ensures KernelGrid(x, e, g, co)(b, ci, i, j) == GridSum(gh, gw, Slice(f, b))
    {
      GridSumExt(g.h, g.w, Pin3(Terms(x, e, g, co, b), ci, i, j), Slice(f, b));
    }
    SumExt(g.n, (a: nat) => KernelGrid(x, e, g, co)(a, ci, i, j), (b: nat) => GridSum(gh, gw, Slice(f, b)));
    Sum3Rotate(g.n, g.h, g.w, f);
  }

  /** The terms of kernel entry (co, ci, i, j) are its weight-gradient steps
      scaled by e[co, ci, i, j]. */
  lemma KernelScaled(x: Tensor4, e: Tensor4, g: Tensor4, co: nat, ci: nat, i: nat, j: nat)
    ensures GridSum(g.h, g.w, Deep(g.n, KernelSpread(x, e, g, co, ci, i, j)))
         == e.At(co, ci, i, j) * GridSum(g.h, g.w, WeightSteps(x, g, co, ci, i, j))
  {
    var f := KernelSpread(x, e, g, co, ci, i, j);
    forall Y: nat, X: nat | Y < g.h && X < g.w
      ensures Deep(g.n, f)(Y, X) == e.At(co, ci, i, j) * WeightSteps(x, g, co, ci, i, j)(Y, X)
    {
      KernelStep(x, e, g, co, ci, i, j, Y, X);
    }
    GridSumScale(g.h, g.w, e.At(co, ci, i, j), WeightSteps(x, g, co, ci, i, j), Deep(g.n, f));
  }

  /** Kernel entry (co, ci, i, j) of <dw, e>: the batch and output-position
      sums of its terms. */
  lemma KernelEntry(x: Tensor4, e: Tensor4, g: Tensor4, co: nat, ci: nat, i: nat, j: nat)
    requires WeightGrad(x, e, g).InBounds(co, ci, i, j)
    ensures WeightGrad(x, e, g).At(co, ci, i, j) * e.At(co, ci, i, j) == Deep3(g.n, KernelGrid(x, e, g, co))(ci, i, j)
  {
    KernelBatches(x, e, g, co, ci, i, j);
    KernelScaled(x, e, g, co, ci, i, j);
    var s := GridSum(g.h, g.w, WeightSteps(x, g, co, ci, i, j));
    assert WeightGrad(x, e, g).At(co, ci, i, j) == s;
    Commute(s, e.At(co, ci, i, j));
  }

  /** Output channel co of <g, Conv(x, e)> is kernel co of <dw, e>. */
  lemma KernelChannel(x: Tensor4, e: Tensor4, g: Tensor4, co: nat)
    requires e.h <= x.h + 1 && e.w <= x.w + 1
    requires co < e.n && g.n == x.n && g.h == x.h + 1 - e.h && g.w == x.w + 1 - e.w
    ensures Sum(g.n, (b: nat) => InnerPlane(g, Conv(x, e), b, co)) == InnerBatch(WeightGrad(x, e, g), e, co)
  {
    var grid := KernelGrid(x, e, g, co);
    var c, h, w := e.c, e.h, e.w;
    forall b: nat | b < g.n
      ensures InnerPlane(g, Conv(x, e), b, co) == Sum3(c, h, w, Fix(grid, b))
    {
      KernelPlane(x, e, g, b, co);
    }
    SumExt(g.n, (b: nat) => InnerPlane(g, Conv(x, e), b, co), (a: nat) => Sum3(c, h, w, Fix(grid, a)));
    SumSum3Swap(g.n, e.c, e.h, e.w, grid);
    var dw := WeightGrad(x, e, g);
    forall ci: nat, i: nat, j: nat | ci < dw.c && i < dw.h && j < dw.w
      ensures dw.At(co, ci, i, j) * e.At(co, ci, i, j) == Deep3(g.n, grid)(ci, i, j)
    {
      KernelEntry(x, e, g, co, ci, i, j);
    }
    InnerBatchSum3(dw, e, co, Deep3(g.n, grid));
  }

  /** The weight gradient is the adjoint of convolving x: for every kernel e
      of the kernel's shape, <g, Conv(x, e)> == <dw, e>, where dw is what
      backward returns for the kernel (it depends on e only through its
      shape). */
  lemma ConvWeightAdjoint(x: Tensor4, e: Tensor4, g: Tensor4)
    requires e.h <= x.h + 1 && e.w <= x.w + 1
    requires g.n == x.n && g.c == e.n && g.h == x.h + 1 - e.h && g.w == x.w + 1 - e.w
    ensures Inner4(g, Conv(x, e)) == Inner4(WeightGrad(x, e, g), e)
  {
    var out := Conv(x, e);
    var planes := (b: nat, co: nat) => InnerPlane(g, out, b, co);
    var m := g.c;
    forall b: nat | b < g.n
      ensures InnerBatch(g, out, b) == Sum(m, (j: nat) => planes(b, j))
    {
      SumExt(g.c, (k: nat) => InnerPlane(g, out, b, k), (j: nat) => planes(b, j));
    }
    SumExt(g.n, (i: nat) => InnerBatch(g, out, i), (i: nat) => Sum(m, (j: nat) => planes(i, j)));
    SumSwap(g.n, g.c, planes);
    var dw := WeightGrad(x, e, g);
    forall co: nat | co < g.c
      ensures Sum(g.n, (i: nat) => planes(i, co)) == InnerBatch(dw, e, co)
    {
      SumExt(g.n, (i: nat) => planes(i, co), (b: nat) => InnerPlane(g, out, b, co));
      KernelChannel(x, e, g, co);
    }
    SumExt(g.c, (j: nat) => Sum(g.n, (i: nat) => planes(i, j)), (i: nat) => InnerBatch(dw, e, i));
  }

  // ---------------------------------------------------------------------
  // The input direction

  /** A term of <g, Conv(d, w)> indexed by the input cell (y, xx) it reads
      instead of by its kernel position: 0 unless the window at (Y, X)
      covers that cell. */
  function CellTerm(d: Tensor4, w: Tensor4, g: Tensor4, b: nat, co: nat, Y: nat, X: nat, ci: nat, y: nat, xx: nat): int
  {
    if Y <= y < Y + w.h && X <= xx < X + w.w then g.At(b, co, Y, X) * (d.At(b, ci, y, xx) * w.At(co, ci, y - Y, xx - X)) else 0
  }

  function CellTerms(d: Tensor4, w: Tensor4, g: Tensor4, b: nat, co: nat): (nat, nat, nat, nat, nat) -> int
  {
    (Y: nat, X: nat, ci: nat, y: nat, xx: nat) => CellTerm(d, w, g, b, co, Y, X, ci, y, xx)
  }

  /** For batch entry b: the sum over output positions of the terms of
      output channel co that read input cell (ci, y, xx). */
  function CellGrid(d: Tensor4, w: Tensor4, g: Tensor4, b: nat): (nat, nat, nat, nat) -> int
  {
    (co: nat, ci: nat, y: nat, xx: nat) => GridSum(g.h, g.w, Pin3(CellTerms(d, w, g, b, co), ci, y, xx))
  }

  /** For input cell (b, ci, y, xx): the terms that read it, indexed by
      output channel and output position. */
  function CellSpread(d: Tensor4, w: Tensor4, g: Tensor4, b: nat, ci: nat, y: nat, xx: nat): (nat, nat, nat) -> int
  {
    (co: nat, Y: nat, X: nat) => CellTerm(d, w, g, b, co, Y, X, ci, y, xx)
  }

  /** The window of output position (Y, X), summed over the kernel, is the
      same sum over the whole input with the cells outside the window
      contributing 0. */
  lemma WindowAsCells(d: Tensor4, w: Tensor4, g: Tensor4, b: nat, co: nat, Y: nat, X: nat)
    requires Y + w.h <= d.h && X + w.w <= d.w
    ensures Sum3(w.c, w.h, w.w, Pin(Terms(d, w, g, co, b), Y, X)) == Sum3(w.c, d.h, d.w, Pin(CellTerms(d, w, g, b, co), Y, X))
  {
    var f1, f2 := Pin(Terms(d, w, g, co, b), Y, X), Pin(CellTerms(d, w, g, b, co), Y, X);
    forall ci: nat | ci < w.c
      ensures GridSum(w.h, w.w, Slice(f1, ci)) == GridSum(d.h, d.w, Slice(f2, ci))
    {
      forall i: nat, j: nat | i < w.h && j < w.w
        ensures Slice(f1, ci)(i, j) == Slice(f2, ci)(Y + i, X + j)
      {
      }
      forall y: nat, xx: nat | y < d.h && xx < d.w && !(Y <= y < Y + w.h && X <= xx < X + w.w)
        ensures Slice(f2, ci)(y, xx) == 0
      {
      }
      GridShift(w.h, w.w, d.h, d.w, Y, X, Slice(f1, ci), Slice(f2, ci));
    }
    Sum3Resize(w.c, w.h, w.w, d.h, d.w, f1, f2);
  }

  /** Plane (b, co) of <g, Conv(d, w)>, summed over the output positions
      innermost and over the input cells rather than the kernel positions. */
  lemma CellPlane(d: Tensor4, w: Tensor4, g: Tensor4, b: nat, co: nat)
    requires w.h <= d.h + 1 && w.w <= d.w + 1
    requires b < d.n && co < w.n && g.h == d.h + 1 - w.h && g.w == d.w + 1 - w.w
    ensures InnerPlane(g, Conv(d, w), b, co) == Sum3(w.c, d.h, d.w, Fix(CellGrid(d, w, g, b), co))
  {
    var terms := CellTerms(d, w, g, b, co);
    forall Y: nat, X: nat | Y < g.h && X < g.w
      ensures g.At(b, co, Y, X) * Conv(d, w).At(b, co, Y, X) == Outer(w.c, d.h, d.w, terms)(Y, X)
    {
      OutputEntry(d, w, g, b, co, Y, X);
      WindowAsCells(d, w, g, b, co, Y, X);
    }
    InnerPlaneGrid(g, Conv(d, w), b, co, Outer(w.c, d.h, d.w, terms));
    GridSum3Swap(g.h, g.w, w.c, d.h, d.w, terms);
    Sum3Ext(w.c, d.h, d.w, Across(g.h, g.w, terms), Fix(CellGrid(d, w, g, b), co));
  }

  /** One output position's share of dx[b, ci, y, xx], weighted by d[b, ci, y, xx]. */
  lemma CellStep(d: Tensor4, w: Tensor4, g: Tensor4, b: nat, ci: nat, y: nat, xx: nat, Y: nat, X: nat)
    requires g.c == w.n
    ensures Deep(g.c, CellSpread(d, w, g, b, ci, y, xx))(Y, X) == d.At(b, ci, y, xx) * InputSteps(w, g, b, ci, y, xx)(Y, X)
  {
    var f := CellSpread(d, w, g, b, ci, y, xx);
    var k := d.At(b, ci, y, xx);
    if Y <= y < Y + w.h && X <= xx < X + w.w {
      var i: nat, j: nat := y - Y, xx - X;
      forall co: nat | co < g.c
        ensures f(co, Y, X) == k * (g.At(b, co, Y, X) * w.At(co, ci, i, j))
      {
        var p, q := g.At(b, co, Y, X), w.At(co, ci, i, j);
        assert p * (k * q) == k * (p * q);
      }
      SumScale(w.n, k, (co: nat) => g.At(b, co, Y, X) * w.At(co, ci, i, j), (a: nat) => f(a, Y, X));
    } else {
      SumZero(g.c, (a: nat) => f(a, Y, X));
    }
  }

  /** Input cell (b, ci, y, xx) of the channel sum of the cell grids: its
      terms summed over the output channels innermost. */
  lemma CellChannels(d: Tensor4, w: Tensor4, g: Tensor4, b: nat, ci: nat, y: nat, xx: nat)
    ensures Deep3(g.c, CellGrid(d, w, g, b))(ci, y, xx) == GridSum(g.h, g.w, Deep(g.c, CellSpread(d, w, g, b, ci, y, xx)))
  {
    var f := CellSpread(d, w, g, b, ci, y, xx);
    var gh, gw := g.h, g.w;
    forall co: nat | co < g.c
      ensures CellGrid(d, w, g, b)(co, ci, y, xx) == GridSum(gh, gw, Slice(f, co))
    {
      GridSumExt(g.h, g.w, Pin3(CellTerms(d, w, g, b, co), ci, y, xx), Slice(f, co));
    }
    SumExt(g.c, (a: nat) => CellGrid(d, w, g, b)(a, ci, y, xx), (co: nat) => GridSum(gh, gw, Slice(f, co)));
    Sum3Rotate(g.c, g.h, g.w, f);
  }

  /** The terms of input cell (b, ci, y, xx) are its input-gradient steps
      scaled by d[b, ci, y, xx]. */
  lemma CellScaled(d: Tensor4, w: Tensor4, g: Tensor4, b: nat, ci: nat, y: nat, xx: nat)
    requires g.c == w.n
    ensures GridSum(g.h, g.w, Deep(g.c, CellSpread(d, w, g, b, ci, y, xx)))
         == d.At(b, ci, y, xx) * GridSum(g.h, g.w, InputSteps(w, g, b, ci, y, xx))
  {
    var f := CellSpread(d, w, g, b, ci, y, xx);
    forall Y: nat, X: nat | Y < g.h && X < g.w
      ensures Deep(g.c, f)(Y, X) == d.At(b, ci, y, xx) * InputSteps(w, g, b, ci, y, xx)(Y, X)
    {
      CellStep(d, w, g, b, ci, y, xx, Y, X);
    }
    GridSumScale(g.h, g.w, d.At(b, ci, y, xx), InputSteps(w, g, b, ci, y, xx), Deep(g.c, f));
  }

  /** Input cell (b, ci, y, xx) of <dx, d>: the channel and output-position
      sums of the terms that read it. */
  lemma CellEntry(d: Tensor4, w: Tensor4, g: Tensor4, b: nat, ci: nat, y: nat, xx: nat)
    requires g.c == w.n
    requires InputGrad(d, w, g).InBounds(b, ci, y, xx)
    ensures InputGrad(d, w, g).At(b, ci, y, xx) * d.At(b, ci, y, xx) == Deep3(g.c, CellGrid(d, w, g, b))(ci, y, xx)
  {
    CellChannels(d, w, g, b, ci, y, xx);
    CellScaled(d, w, g, b, ci, y, xx);
    var s := GridSum(g.h, g.w, InputSteps(w, g, b, ci, y, xx));
    assert InputGrad(d, w, g).At(b, ci, y, xx) == s;
    Commute(s, d.At(b, ci, y, xx));
  }

  /** Batch entry b of <g, Conv(d, w)> is batch entry b of <dx, d>. */
  lemma CellBatch(d: Tensor4, w: Tensor4, g: Tensor4, b: nat)
    requires w.h <= d.h + 1 && w.w <= d.w + 1 && d.c == w.c
    requires b < d.n && g.c == w.n && g.h == d.h + 1 - w.h && g.w == d.w + 1 - w.w
    ensures InnerBatch(g, Conv(d, w), b) == InnerBatch(InputGrad(d, w, g), d, b)
  {
    var grid := CellGrid(d, w, g, b);
    var c, h, wd := w.c, d.h, d.w;
    forall co: nat | co < g.c
      ensures InnerPlane(g, Conv(d, w), b, co) == Sum3(c, h, wd, Fix(grid, co))
    {
      CellPlane(d, w, g, b, co);
    }
    SumExt(g.c, (k: nat) => InnerPlane(g, Conv(d, w), b, k), (a: nat) => Sum3(c, h, wd, Fix(grid, a)));
    SumSum3Swap(g.c, w.c, d.h, d.w, grid);
    var dx := InputGrad(d, w, g);
    forall ci: nat, y: nat, xx: nat | ci < dx.c && y < dx.h && xx < dx.w
      ensures dx.At(b, ci, y, xx) * d.At(b, ci, y, xx) == Deep3(g.c, grid)(ci, y, xx)
    {
      CellEntry(d, w, g, b, ci, y, xx);
    }
    InnerBatchSum3(dx, d, b, Deep3(g.c, grid));
  }

  /** The input gradient is the adjoint of convolving by w: for every d of
      the input's shape, <g, Conv(d, w)> == <dx, d>, where dx is what
      backward returns for the input (it depends on d only through its
      shape). */
  lemma ConvInputAdjoint(d: Tensor4, w: Tensor4, g: Tensor4)
    requires w.h <= d.h + 1 && w.w <= d.w + 1 && d.c == w.c
    requires g.n == d.n && g.c == w.n && g.h == d.h + 1 - w.h && g.w == d.w + 1 - w.w
    ensures Inner4(g, Conv(d, w)) == Inner4(InputGrad(d, w, g), d)
  {
    var out, dx := Conv(d, w), InputGrad(d, w, g);
    forall b: nat | b < g.n
      ensures InnerBatch(g, out, b) == InnerBatch(dx, d, b)
    {
      CellBatch(d, w, g, b);
    }
    SumExt(g.n, (i: nat) => InnerBatch(g, out, i), (i: nat) => InnerBatch(dx, d, i));
  }

  // ---------------------------------------------------------------------
  // The chain rule

  /** An output entry is additive in the input ... */
  lemma ConvAtSumInput(s: Tensor4, x: Tensor4, d: Tensor4, w: Tensor4, b: nat, co: nat, Y: nat, X: nat)
    requires IsSum(s, x, d)
    ensures ConvAt(s, w, b, co, Y, X) == ConvAt(x, w, b, co, Y, X) + ConvAt(d, w, b, co, Y, X)
  {
    forall ci: nat, i: nat, j: nat | ci < w.c && i < w.h && j < w.w
      ensures Taps(s, w, b, co, Y, X)(ci, i, j) == Taps(x, w, b, co, Y, X)(ci, i, j) + Taps(d, w, b, co, Y, X)(ci, i, j)
    {
      var p, q, r := x.At(b, ci, Y + i, X + j), d.At(b, ci, Y + i, X + j), w.At(co, ci, i, j);
      assert (p + q) * r == p * r + q * r;
    }
    Sum3Add(w.c, w.h, w.w, Taps(x, w, b, co, Y, X), Taps(d, w, b, co, Y, X), Taps(s, w, b, co, Y, X));
  }

  /** ... and in the kernel. */
  lemma ConvAtSumKernel(x: Tensor4, s: Tensor4, w: Tensor4, e: Tensor4, b: nat, co: nat, Y: nat, X: nat)
    requires IsSum(s, w, e) && s.c == w.c && s.h == w.h && s.w == w.w && e.c == w.c && e.h == w.h && e.w == w.w
    ensures ConvAt(x, s, b, co, Y, X) == ConvAt(x, w, b, co, Y, X) + ConvAt(x, e, b, co, Y, X)
  {
    forall ci: nat, i: nat, j: nat | ci < w.c && i < w.h && j < w.w
      ensures Taps(x, s, b, co, Y, X)(ci, i, j) == Taps(x, w, b, co, Y, X)(ci, i, j) + Taps(x, e, b, co, Y, X)(ci, i, j)
    {
      var p, q, r := w.At(co, ci, i, j), e.At(co, ci, i, j), x.At(b, ci, Y + i, X + j);
      assert r * (p + q) == r * p + r * q;
    }
    Sum3Add(w.c, w.h, w.w, Taps(x, w, b, co, Y, X), Taps(x, e, b, co, Y, X), Taps(x, s, b, co, Y, X));
    assert ConvAt(x, s, b, co, Y, X) == Sum3(w.c, w.h, w.w, Taps(x, s, b, co, Y, X));
  }

  /** t holds the convolution of x by w at each of its own positions. */
  ghost predicate IsConv(t: Tensor4, x: Tensor4, w: Tensor4)
  {
    forall b: nat, co: nat, Y: nat, X: nat :: t.InBounds(b, co, Y, X) ==> t.At(b, co, Y, X) == ConvAt(x, w, b, co, Y, X)
  }

  /** m holds after - before at each of its own positions. */
  ghost predicate IsDiff(m: Tensor4, after: Tensor4, before: Tensor4)
  {
    forall b: nat, co: nat, Y: nat, X: nat :: m.InBounds(b, co, Y, X) ==> m.At(b, co, Y, X) == after.At(b, co, Y, X) - before.At(b, co, Y, X)
  }

  /** Pointwise step of linearity in the input, on tensors known only by
      what they hold. */
  lemma MovedInput(moved: Tensor4, after: Tensor4, before: Tensor4, delta: Tensor4, s: Tensor4, x: Tensor4, d: Tensor4, w: Tensor4)
    requires IsSum(s, x, d) && IsConv(after, s, w) && IsConv(before, x, w) && IsConv(delta, d, w) && IsDiff(moved, after, before)
    requires moved.n == after.n == before.n == delta.n && moved.c == after.c == before.c == delta.c
    requires moved.h == after.h == before.h == delta.h && moved.w == after.w == before.w == delta.w
    ensures forall b: nat, co: nat, Y: nat, X: nat :: moved.InBounds(b, co, Y, X) ==> moved.At(b, co, Y, X) == delta.At(b, co, Y, X)
  {
    forall b: nat, co: nat, Y: nat, X: nat | moved.InBounds(b, co, Y, X)
      ensures moved.At(b, co, Y, X) == delta.At(b, co, Y, X)
    {
      ConvAtSumInput(s, x, d, w, b, co, Y, X);
    }
  }

  /** The convolution is linear in its input ... */
  lemma ConvLinearInput(x: Tensor4, w: Tensor4, d: Tensor4)
    requires x.Valid() && w.h <= x.h + 1 && w.w <= x.w + 1
    requires d.Valid() && d.n == x.n && d.c == x.c && d.h == x.h && d.w == x.w
    ensures Minus4(Conv(Plus4(x, d), w), Conv(x, w)) == Conv(d, w)
  {
    var s := Plus4(x, d);
    Plus4IsSum(x, d);
    var after, before, delta := Conv(s, w), Conv(x, w), Conv(d, w);
    var moved := Minus4(after, before);
    MovedInput(moved, after, before, delta, s, x, d, w);
    Tensor4Ext(moved, delta);
  }

  /** Pointwise step of linearity in the kernel. */
  lemma MovedKernel(moved: Tensor4, after: Tensor4, before: Tensor4, delta: Tensor4, x: Tensor4, s: Tensor4, w: Tensor4, e: Tensor4)
    requires IsSum(s, w, e) && s.c == w.c && s.h == w.h && s.w == w.w && e.c == w.c && e.h == w.h && e.w == w.w
    requires IsConv(after, x, s) && IsConv(before, x, w) && IsConv(delta, x, e) && IsDiff(moved, after, before)
    requires moved.n == after.n == before.n == delta.n && moved.c == after.c == before.c == delta.c
    requires moved.h == after.h == before.h == delta.h && moved.w == after.w == before.w == delta.w
    ensures forall b: nat, co: nat, Y: nat, X: nat :: moved.InBounds(b, co, Y, X) ==> moved.At(b, co, Y, X) == delta.At(b, co, Y, X)
  {
    forall b: nat, co: nat, Y: nat, X: nat | moved.InBounds(b, co, Y, X)
      ensures moved.At(b, co, Y, X) == delta.At(b, co, Y, X)
    {
      ConvAtSumKernel(x, s, w, e, b, co, Y, X);
    }
  }

  /** ... and in its kernel. */
  lemma ConvLinearKernel(x: Tensor4, w: Tensor4, e: Tensor4)
    requires w.Valid() && w.h <= x.h + 1 && w.w <= x.w + 1
    requires e.Valid() && e.n == w.n && e.c == w.c && e.h == w.h && e.w == w.w
    ensures Minus4(Conv(x, Plus4(w, e)), Conv(x, w)) == Conv(x, e)
  {
    var s := Plus4(w, e);
    Plus4IsSum(w, e);
    var after, before, delta := Conv(x, s), Conv(x, w), Conv(x, e);
    var moved := Minus4(after, before);
    MovedKernel(moved, after, before, delta, x, s, w, e);
    Tensor4Ext(moved, delta);
  }

  /** The chain rule for Conv2D, input side: moving the input by d changes
      the output, weighted by the incoming gradient, by exactly the input
      gradient that backward returns weighted by d. */
  lemma ConvInputGradient(x: Tensor4, w: Tensor4, g: Tensor4, d: Tensor4)
    requires x.Valid() && w.Valid() && w.h <= x.h + 1 && w.w <= x.w + 1 && x.c == w.c
    requires g.n == x.n && g.c == w.n && g.h == x.h + 1 - w.h && g.w == x.w + 1 - w.w
    requires d.Valid() && d.n == x.n && d.c == x.c && d.h == x.h && d.w == x.w
    ensures Inner4(g, Minus4(Conv(Plus4(x, d), w), Conv(x, w))) == Inner4(InputGrad(x, w, g), d)
  {
    ConvLinearInput(x, w, d);
    ConvInputAdjoint(d, w, g);
    InputGradShape(d, x, w, g);
  }

  /** The chain rule for Conv2D, kernel side: moving the kernel by e changes
      the output, weighted by the incoming gradient, by exactly the weight
      gradient that backward returns weighted by e. */
  lemma ConvWeightGradient(x: Tensor4, w: Tensor4, g: Tensor4, e: Tensor4)
    requires x.Valid() && w.Valid() && w.h <= x.h + 1 && w.w <= x.w + 1
    requires g.n == x.n && g.c == w.n && g.h == x.h + 1 - w.h && g.w == x.w + 1 - w.w
    requires e.Valid() && e.n == w.n && e.c == w.c && e.h == w.h && e.w == w.w
    ensures Inner4(g, Minus4(Conv(x, Plus4(w, e)), Conv(x, w))) == Inner4(WeightGrad(x, w, g), e)
  {
    ConvLinearKernel(x, w, e);
    ConvWeightAdjoint(x, e, g);
    WeightGradShape(x, e, w, g);
  }

  /** The input gradient depends on the input only through its shape. */
  lemma InputGradShape(d: Tensor4, x: Tensor4, w: Tensor4, g: Tensor4)
    requires d.n == x.n && d.c == x.c && d.h == x.h && d.w == x.w
    ensures InputGrad(d, w, g) == InputGrad(x, w, g)
  {
  }

  /** The weight gradient depends on the kernel only through its shape. */
  lemma WeightGradShape(x: Tensor4, e: Tensor4, w: Tensor4, g: Tensor4)
    requires e.n == w.n && e.c == w.c && e.h == w.h && e.w == w.w
    ensures WeightGrad(x, e, g) == WeightGrad(x, w, g)
  {
  }
}
