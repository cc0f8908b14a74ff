/** Dot (tinygrad/ops.py:53-65): the matrix product of an n-by-k input and
    a k-by-m weight, and its chain rule. */
module DotOp {
  import opened Sums
  import opened Tensors

  /** Both operands, saved by forward for backward. */
  datatype DotContext = DotContext(input: Matrix, weight: Matrix)

  /** Entry (i, j) of the product: the sum over t of a(i, t) * b(t, j). */
  function MatMulAt(a: Matrix, b: Matrix, i: nat, j: nat): int
  {
    Sum(a.cols, (t: nat) => a.At(i, t) * b.At(t, j))
  }

  /** Row-by-column product. */
  function MatMul(a: Matrix, b: Matrix): (p: Matrix)
    requires a.cols == b.rows
    ensures p.Valid() && p.rows == a.rows && p.cols == b.cols
    ensures forall i: nat, j: nat :: i < a.rows && j < b.cols ==> p.At(i, j) == MatMulAt(a, b, i, j)
  {
    MatrixOf(a.rows, b.cols, (i: nat, j: nat) => MatMulAt(a, b, i, j))
  }

  function Transpose(a: Matrix): (t: Matrix)
    ensures t.Valid() && t.rows == a.cols && t.cols == a.rows
    ensures forall i: nat, j: nat :: i < a.cols && j < a.rows ==> t.At(i, j) == a.At(j, i)
  {
    MatrixOf(a.cols, a.rows, (i: nat, j: nat) => a.At(j, i))
  }

  /** numpy refuses operands whose inner dimensions differ. */
  function DotForward(input: Matrix, weight: Matrix): (r: Result<(Matrix, DotContext)>)
    requires input.Valid() && weight.Valid()
    ensures r.Ok? <==> input.cols == weight.rows
    ensures r.Ok? ==> r.value.0.Valid() && r.value.0.rows == input.rows && r.value.0.cols == weight.cols
    ensures r.Ok? ==> r.value.1 == DotContext(input, weight)
    ensures r.Err? ==> r.error == ShapeMismatch
  {
    if input.cols != weight.rows then Err(ShapeMismatch)
    else Ok((MatMul(input, weight), DotContext(input, weight)))
  }

  /** grad_input = grad . weightT, grad_weight = (gradT . input)T. */
  function DotBackward(ctx: DotContext, grad: Matrix): (r: (Matrix, Matrix))
    requires ctx.input.Valid() && ctx.weight.Valid() && ctx.input.cols == ctx.weight.rows
    requires grad.Valid() && grad.rows == ctx.input.rows && grad.cols == ctx.weight.cols
    ensures r.0.Valid() && r.0.rows == ctx.input.rows && r.0.cols == ctx.input.cols
    ensures r.1.Valid() && r.1.rows == ctx.weight.rows && r.1.cols == ctx.weight.cols
  {
    (MatMul(grad, Transpose(ctx.weight)), Transpose(MatMul(Transpose(grad), ctx.input)))
  }

  /** Two matrices of one shape with the same entries are equal. */
  lemma MatrixExt(a: Matrix, b: Matrix)
    requires a.Valid() && b.Valid() && a.rows == b.rows && a.cols == b.cols
    requires forall i: nat, j: nat :: i < a.rows && j < a.cols ==> a.At(i, j) == b.At(i, j)
    ensures a == b
  {
    forall i | 0 <= i < a.rows
      ensures a.e[i] == b.e[i]
    {
      forall j | 0 <= j < a.cols
        ensures a.e[i][j] == b.e[i][j]
      {
        assert a.At(i, j) == b.At(i, j);
      }
    }
  }

  /** The transpose of a product is the product of the transposes, in the
      other order. */
  lemma TransposeMatMul(a: Matrix, b: Matrix)
    requires a.Valid() && b.Valid() && a.cols == b.rows
    ensures Transpose(MatMul(a, b)) == MatMul(Transpose(b), Transpose(a))
  {
    var l, r := Transpose(MatMul(a, b)), MatMul(Transpose(b), Transpose(a));
    forall i: nat, j: nat | i < l.rows && j < l.cols
      ensures l.At(i, j) == r.At(i, j)
    {
      TransposeMatMulAt(a, b, i, j);
    }
    MatrixExt(l, r);
  }

  lemma TransposeMatMulAt(a: Matrix, b: Matrix, i: nat, j: nat)
    requires a.Valid() && b.Valid() && a.cols == b.rows && i < b.cols && j < a.rows
    ensures MatMulAt(a, b, j, i) == MatMulAt(Transpose(b), Transpose(a), i, j)
  {
    var bt, at := Transpose(b), Transpose(a);
    forall t: nat | t < a.cols
      ensures a.At(j, t) * b.At(t, i) == bt.At(i, t) * at.At(t, j)
    {
      assert bt.At(i, t) == b.At(t, i) && at.At(t, j) == a.At(j, t);
    }
    SumExt(a.cols, (t: nat) => a.At(j, t) * b.At(t, i), (t: nat) => bt.At(i, t) * at.At(t, j));
  }

  lemma TransposeTwice(a: Matrix)
    requires a.Valid()
    ensures Transpose(Transpose(a)) == a
  {
    MatrixExt(Transpose(Transpose(a)), a);
  }

  /** The weight gradient, written as the transpose of gradT . input, is
      inputT . grad, and has the weight's shape. */
  lemma DotWeightGradient(ctx: DotContext, grad: Matrix)
    requires ctx.input.Valid() && ctx.weight.Valid() && ctx.input.cols == ctx.weight.rows
    requires grad.Valid() && grad.rows == ctx.input.rows && grad.cols == ctx.weight.cols
    ensures DotBackward(ctx, grad).1 == MatMul(Transpose(ctx.input), grad)
  {
    TransposeMatMul(Transpose(grad), ctx.input);
    TransposeTwice(grad);
  }

  /** Entrywise sum of two matrices of one shape. */
  function MatPlus(a: Matrix, b: Matrix): (s: Matrix)
    requires a.rows == b.rows && a.cols == b.cols
    ensures s.Valid() && s.rows == a.rows && s.cols == a.cols
    ensures forall i: nat, j: nat :: i < a.rows && j < a.cols ==> s.At(i, j) == a.At(i, j) + b.At(i, j)
  {
    MatrixOf(a.rows, a.cols, (i: nat, j: nat) => a.At(i, j) + b.At(i, j))
  }

  /** Entrywise difference of two matrices of one shape. */
  function MatMinus(a: Matrix, b: Matrix): (s: Matrix)
    requires a.rows == b.rows && a.cols == b.cols
    ensures s.Valid() && s.rows == a.rows && s.cols == a.cols
    ensures forall i: nat, j: nat :: i < a.rows && j < a.cols ==> s.At(i, j) == a.At(i, j) - b.At(i, j)
  {
    MatrixOf(a.rows, a.cols, (i: nat, j: nat) => a.At(i, j) - b.At(i, j))
  }

  /** The product changes by the moved operand times the other one. */
  lemma MatMulMoveLeft(x: Matrix, d: Matrix, w: Matrix)
    requires x.Valid() && d.Valid() && x.rows == d.rows && x.cols == d.cols && x.cols == w.rows
    ensures MatMinus(MatMul(MatPlus(x, d), w), MatMul(x, w)) == MatMul(d, w)
  {
    var l, r := MatMinus(MatMul(MatPlus(x, d), w), MatMul(x, w)), MatMul(d, w);
    forall i: nat, j: nat | i < l.rows && j < l.cols
      ensures l.At(i, j) == r.At(i, j)
    {
      MoveLeftAt(x, d, w, i, j);
    }
    MatrixExt(l, r);
  }

  lemma MoveLeftAt(x: Matrix, d: Matrix, w: Matrix, i: nat, j: nat)
    requires x.Valid() && d.Valid() && x.rows == d.rows && x.cols == d.cols && x.cols == w.rows
    requires i < x.rows && j < w.cols
    ensures MatMul(MatPlus(x, d), w).At(i, j) == MatMul(x, w).At(i, j) + MatMul(d, w).At(i, j)
  {
    var s := MatPlus(x, d);
    forall t: nat | t < x.cols
      ensures s.At(i, t) * w.At(t, j) == x.At(i, t) * w.At(t, j) + d.At(i, t) * w.At(t, j)
    {
      var p, q, r := x.At(i, t), d.At(i, t), w.At(t, j);
      assert s.At(i, t) == p + q;
      assert (p + q) * r == p * r + q * r;
    }
    SumAdd(x.cols, (t: nat) => x.At(i, t) * w.At(t, j), (t: nat) => d.At(i, t) * w.At(t, j),
                   (t: nat) => s.At(i, t) * w.At(t, j));
  }

  lemma MatMulMoveRight(x: Matrix, w: Matrix, e: Matrix)
    requires w.Valid() && e.Valid() && w.rows == e.rows && w.cols == e.cols && x.cols == w.rows
    ensures MatMinus(MatMul(x, MatPlus(w, e)), MatMul(x, w)) == MatMul(x, e)
  {
    var l, r := MatMinus(MatMul(x, MatPlus(w, e)), MatMul(x, w)), MatMul(x, e);
    forall i: nat, j: nat | i < l.rows && j < l.cols
      ensures l.At(i, j) == r.At(i, j)
    {
      MoveRightAt(x, w, e, i, j);
    }
    MatrixExt(l, r);
  }

  lemma MoveRightAt(x: Matrix, w: Matrix, e: Matrix, i: nat, j: nat)
    requires w.Valid() && e.Valid() && w.rows == e.rows && w.cols == e.cols && x.cols == w.rows
    requires i < x.rows && j < w.cols
    ensures MatMul(x, MatPlus(w, e)).At(i, j) == MatMul(x, w).At(i, j) + MatMul(x, e).At(i, j)
  {
    var s := MatPlus(w, e);
    forall t: nat | t < x.cols
      ensures x.At(i, t) * s.At(t, j) == x.At(i, t) * w.At(t, j) + x.At(i, t) * e.At(t, j)
    {
      var p, q, r := w.At(t, j), e.At(t, j), x.At(i, t);
      assert s.At(t, j) == p + q;
      assert r * (p + q) == r * p + r * q;
    }
    SumAdd(x.cols, (t: nat) => x.At(i, t) * w.At(t, j), (t: nat) => x.At(i, t) * e.At(t, j),
                   (t: nat) => x.At(i, t) * s.At(t, j));
  }

  /** <g, a . b> = <g . bT, a>: the core of both halves of the chain rule. */
  lemma InnerMatMulLeft(g: Matrix, a: Matrix, b: Matrix)
    requires g.Valid() && a.Valid() && b.Valid() && a.cols == b.rows
    requires g.rows == a.rows && g.cols == b.cols
    ensures MatInner(g, MatMul(a, b)) == MatInner(MatMul(g, Transpose(b)), a)
  {
    var p, q := MatMul(a, b), MatMul(g, Transpose(b));
    forall i: nat | i < a.rows
      ensures RowInner(g, p, i) == RowInner(q, a, i)
    {
      InnerMatMulRow(g, a, b, i);
    }
    SumExt(a.rows, (i: nat) => RowInner(g, p, i), (i: nat) => RowInner(q, a, i));
  }

  lemma InnerMatMulRow(g: Matrix, a: Matrix, b: Matrix, i: nat)
    requires g.Valid() && a.Valid() && b.Valid() && a.cols == b.rows
    requires g.rows == a.rows && g.cols == b.cols && i < a.rows
    ensures RowInner(g, MatMul(a, b), i) == RowInner(MatMul(g, Transpose(b)), a, i)
  {
    var k, m := a.cols, b.cols;
    var p, q := MatMul(a, b), MatMul(g, Transpose(b));
    var f := (j: nat, t: nat) => Term(g, a, b, i, j, t);
    forall j: nat | j < m
      ensures g.At(i, j) * p.At(i, j) == Sum(k, (t: nat) => f(j, t))
    {
      TermsOfRow(g, a, b, i, j);
      SumExt(k, (t: nat) => f(j, t), (t: nat) => Term(g, a, b, i, j, t));
    }
    SumExt(m, (j: nat) => g.At(i, j) * p.At(i, j), (j: nat) => Sum(k, (t: nat) => f(j, t)));
    SumSwap(m, k, f);
    forall t: nat | t < k
      ensures Sum(m, (j: nat) => f(j, t)) == q.At(i, t) * a.At(i, t)
    {
      TermsOfColumn(g, a, b, i, t);
      SumExt(m, (j: nat) => f(j, t), (j: nat) => Term(g, a, b, i, j, t));
    }
    SumExt(k, (t: nat) => Sum(m, (j: nat) => f(j, t)), (t: nat) => q.At(i, t) * a.At(i, t));
  }

  /** One term of <g, a . b> in row i: g(i, j) * a(i, t) * b(t, j). */
  function Term(g: Matrix, a: Matrix, b: Matrix, i: nat, j: nat, t: nat): int
  {
    g.At(i, j) * (a.At(i, t) * b.At(t, j))
  }

  lemma TermsOfRow(g: Matrix, a: Matrix, b: Matrix, i: nat, j: nat)
    requires a.cols == b.rows && i < a.rows && j < b.cols
    ensures g.At(i, j) * MatMul(a, b).At(i, j) == Sum(a.cols, (t: nat) => Term(g, a, b, i, j, t))
  {
    SumScale(a.cols, g.At(i, j), (t: nat) => a.At(i, t) * b.At(t, j), (t: nat) => Term(g, a, b, i, j, t));
  }

  lemma TermsOfColumn(g: Matrix, a: Matrix, b: Matrix, i: nat, t: nat)
    requires a.Valid() && b.Valid() && a.cols == b.rows && g.cols == b.cols
    requires i < g.rows && t < a.cols
    ensures MatMul(g, Transpose(b)).At(i, t) * a.At(i, t) == Sum(b.cols, (j: nat) => Term(g, a, b, i, j, t))
  {
    var bt := Transpose(b);
    var c := a.At(i, t);
    forall j: nat | j < b.cols
      ensures Term(g, a, b, i, j, t) == c * (g.At(i, j) * bt.At(j, t))
    {
      assert bt.At(j, t) == b.At(t, j);
      Rearrange(g.At(i, j), c, b.At(t, j));
    }
    SumScale(b.cols, c, (j: nat) => g.At(i, j) * bt.At(j, t), (j: nat) => Term(g, a, b, i, j, t));
    var q := MatMulAt(g, bt, i, t);
    assert MatMul(g, bt).At(i, t) == q;
    Commute(q, c);
  }

  /** Transposing both factors leaves the Frobenius inner product alone. */
  lemma InnerTranspose(a: Matrix, b: Matrix)
    requires a.Valid() && b.Valid() && a.rows == b.rows && a.cols == b.cols
    ensures MatInner(Transpose(a), Transpose(b)) == MatInner(a, b)
  {
    var at, bt := Transpose(a), Transpose(b);
    var f := (i: nat, j: nat) => a.At(i, j) * b.At(i, j);
    forall i: nat | i < a.rows
      ensures RowInner(a, b, i) == Sum(a.cols, (j: nat) => f(i, j))
    {
      SumExt(a.cols, (j: nat) => a.At(i, j) * b.At(i, j), (j: nat) => f(i, j));
    }
    SumExt(a.rows, (i: nat) => RowInner(a, b, i), (i: nat) => Sum(a.cols, (j: nat) => f(i, j)));
    SumSwap(a.rows, a.cols, f);
    forall j: nat | j < a.cols
      ensures RowInner(at, bt, j) == Sum(a.rows, (i: nat) => f(i, j))
    {
      SumExt(a.rows, (i: nat) => at.At(j, i) * bt.At(j, i), (i: nat) => f(i, j));
    }
    SumExt(a.cols, (j: nat) => RowInner(at, bt, j), (j: nat) => Sum(a.rows, (i: nat) => f(i, j)));
  }

  /** <g, a . b> = <aT . g, b>. */
  lemma InnerMatMulRight(g: Matrix, a: Matrix, b: Matrix)
    requires g.Valid() && a.Valid() && b.Valid() && a.cols == b.rows
    requires g.rows == a.rows && g.cols == b.cols
    ensures MatInner(g, MatMul(a, b)) == MatInner(MatMul(Transpose(a), g), b)
  {
    var gt, at, bt := Transpose(g), Transpose(a), Transpose(b);
    InnerTranspose(g, MatMul(a, b));
    TransposeMatMul(a, b);
    InnerMatMulLeft(gt, bt, at);
    TransposeTwice(a);
    TransposeMatMul(gt, a);
    TransposeTwice(g);
    InnerTranspose(MatMul(gt, a), bt);
    TransposeTwice(b);
  }

  /** The chain rule for Dot: moving the input by d changes the output, as
      weighted by the incoming gradient, by exactly the input gradient
      weighted by d; likewise for the weight and the weight gradient. */
  lemma DotGradient(x: Matrix, w: Matrix, grad: Matrix, d: Matrix, e: Matrix)
    requires x.Valid() && w.Valid() && x.cols == w.rows
    requires grad.Valid() && grad.rows == x.rows && grad.cols == w.cols
    requires d.Valid() && d.rows == x.rows && d.cols == x.cols
    requires e.Valid() && e.rows == w.rows && e.cols == w.cols
    ensures var (out, ctx) := DotForward(x, w).value;
      var (gx, gw) := DotBackward(ctx, grad);
      && MatInner(grad, MatMinus(DotForward(MatPlus(x, d), w).value.0, out)) == MatInner(gx, d)
      && MatInner(grad, MatMinus(DotForward(x, MatPlus(w, e)).value.0, out)) == MatInner(gw, e)
  {
    var ctx := DotContext(x, w);
    MatMulMoveLeft(x, d, w);
    InnerMatMulLeft(grad, d, w);
    MatMulMoveRight(x, w, e);
    InnerMatMulRight(grad, x, e);
    DotWeightGradient(ctx, grad);
  }
}
