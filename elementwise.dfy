/** Mul and Add (tinygrad/ops.py:17-37) on operands of one shape.

    Each gradient lemma states the chain rule exactly: both operations are
    linear in each operand, so for every direction d the change of the
    output, weighted by the incoming gradient g, equals the returned input
    gradient weighted by d. */
module MulOp {
  import opened Sums
  import opened Tensors

  /** Both operands, saved by forward for backward. */
  datatype MulContext = MulContext(x: Tensor, y: Tensor)

  predicate SameShape(x: Tensor, y: Tensor)
  {
    x.Valid() && y.Valid() && x.shape == y.shape
  }

  function MulForward(x: Tensor, y: Tensor): (r: (Tensor, MulContext))
    requires SameShape(x, y)
    ensures SameShape(r.0, x) && r.1 == MulContext(x, y)
    ensures forall i :: 0 <= i < |x.data| ==> r.0.data[i] == x.data[i] * y.data[i]
  {
    (Tensor(x.shape, Times(x.data, y.data)), MulContext(x, y))
  }

  /** Returns (y * grad, x * grad): each operand's gradient is the other
      operand times the incoming gradient. */
  function MulBackward(ctx: MulContext, grad: Tensor): (r: (Tensor, Tensor))
    requires SameShape(ctx.x, ctx.y) && SameShape(grad, ctx.x)
    ensures SameShape(r.0, ctx.x) && SameShape(r.1, ctx.y)
    ensures forall i :: 0 <= i < |grad.data| ==>
      r.0.data[i] == ctx.y.data[i] * grad.data[i] && r.1.data[i] == ctx.x.data[i] * grad.data[i]
  {
    (Tensor(ctx.y.shape, Times(ctx.y.data, grad.data)), Tensor(ctx.x.shape, Times(ctx.x.data, grad.data)))
  }

  /** Moving x by d changes x * y by exactly what the x-gradient predicts,
      and moving y by e by exactly what the y-gradient predicts. */
  lemma MulGradient(x: Tensor, y: Tensor, grad: Tensor, d: seq<int>, e: seq<int>)
    requires SameShape(x, y) && SameShape(grad, x) && |d| == |e| == |x.data|
    ensures var (out, ctx) := MulForward(x, y);
      var (gx, gy) := MulBackward(ctx, grad);
      && DotVec(grad.data, Minus(Times(Plus(x.data, d), y.data), out.data)) == DotVec(gx.data, d)
      && DotVec(grad.data, Minus(Times(x.data, Plus(y.data, e)), out.data)) == DotVec(gy.data, e)
  {
    MovedLeft(x.data, y.data, d);
    MovedRight(x.data, y.data, e);
    WeightedProduct(grad.data, y.data, d);
    WeightedProduct(grad.data, x.data, e);
  }

  /** Moving the left factor by t moves the product by t * b. */
  lemma MovedLeft(a: seq<int>, b: seq<int>, t: seq<int>)
    requires |a| == |b| == |t|
    ensures Minus(Times(Plus(a, t), b), Times(a, b)) == Times(t, b)
  {
    forall i | 0 <= i < |a|
      ensures Minus(Times(Plus(a, t), b), Times(a, b))[i] == Times(t, b)[i]
    {
      assert (a[i] + t[i]) * b[i] - a[i] * b[i] == t[i] * b[i];
    }
  }

  /** Moving the right factor by t moves the product by a * t. */
  lemma MovedRight(a: seq<int>, b: seq<int>, t: seq<int>)
    requires |a| == |b| == |t|
    ensures Minus(Times(a, Plus(b, t)), Times(a, b)) == Times(a, t)
  {
    forall i | 0 <= i < |a|
      ensures Minus(Times(a, Plus(b, t)), Times(a, b))[i] == Times(a, t)[i]
    {
      assert a[i] * (b[i] + t[i]) - a[i] * b[i] == a[i] * t[i];
    }
  }

  /** <g, t * b> == <b * g, t>, and likewise with the factors swapped. */
  lemma WeightedProduct(g: seq<int>, b: seq<int>, t: seq<int>)
    requires |g| == |b| == |t|
    ensures DotVec(g, Times(t, b)) == DotVec(Times(b, g), t)
    ensures DotVec(g, Times(b, t)) == DotVec(Times(b, g), t)
  {
    forall i | 0 <= i < |g|
      ensures g[i] * Times(t, b)[i] == Times(b, g)[i] * t[i] && g[i] * Times(b, t)[i] == Times(b, g)[i] * t[i]
    {
      assert g[i] * (t[i] * b[i]) == (b[i] * g[i]) * t[i];
      assert g[i] * (b[i] * t[i]) == (b[i] * g[i]) * t[i];
    }
    DotVecPointwise(g, Times(t, b), Times(b, g), t);
    DotVecPointwise(g, Times(b, t), Times(b, g), t);
  }
}

module AddOp {
  import opened Sums
  import opened Tensors

  /** Add saves nothing for backward. */
  datatype AddContext = AddContext

  function AddForward(x: Tensor, y: Tensor): (r: (Tensor, AddContext))
    requires x.Valid() && y.Valid() && x.shape == y.shape
    ensures r.0.Valid() && r.0.shape == x.shape
    ensures forall i :: 0 <= i < |x.data| ==> r.0.data[i] == x.data[i] + y.data[i]
  {
    (Tensor(x.shape, Plus(x.data, y.data)), AddContext)
  }

  /** Returns the incoming gradient, unchanged, for both operands. */
  function AddBackward(ctx: AddContext, grad: Tensor): (r: (Tensor, Tensor))
    ensures r.0 == grad && r.1 == grad
  {
    (grad, grad)
  }

  /** Moving either operand by d changes the sum by exactly d, so the
      gradient weighted by d is what backward predicts for that operand. */
  lemma AddGradient(x: Tensor, y: Tensor, grad: Tensor, d: seq<int>)
    requires x.Valid() && y.Valid() && x.shape == y.shape
    requires grad.Valid() && grad.shape == x.shape && |d| == |x.data|
    ensures var out := AddForward(x, y).0;
      var (gx, gy) := AddBackward(AddForward(x, y).1, grad);
      && DotVec(grad.data, Minus(AddForward(Tensor(x.shape, Plus(x.data, d)), y).0.data, out.data)) == DotVec(gx.data, d)
      && DotVec(grad.data, Minus(AddForward(x, Tensor(y.shape, Plus(y.data, d))).0.data, out.data)) == DotVec(gy.data, d)
  {
    var x', y' := Tensor(x.shape, Plus(x.data, d)), Tensor(y.shape, Plus(y.data, d));
    assert AddForward(x, y).0.data == Plus(x.data, y.data);
    assert AddForward(x', y).0.data == Plus(Plus(x.data, d), y.data);
    assert AddForward(x, y').0.data == Plus(x.data, Plus(y.data, d));
    MovedSum(x.data, y.data, d);
  }

  /** Moving either summand by t moves the sum by t. */
  lemma MovedSum(a: seq<int>, b: seq<int>, t: seq<int>)
    requires |a| == |b| == |t|
    ensures Minus(Plus(Plus(a, t), b), Plus(a, b)) == t
    ensures Minus(Plus(a, Plus(b, t)), Plus(a, b)) == t
  {
  }
}

/** ReLU (tinygrad/ops.py:39-51). */
module ReLUOp {
  import opened Sums
  import opened Tensors

  /** The input, saved by forward for backward. */
  datatype ReLUContext = ReLUContext(input: Tensor)

  function Relu(v: int): int
  {
    if v < 0 then 0 else v
  }

  /** max(input, 0) entrywise. */
  function ReLUForward(input: Tensor): (r: (Tensor, ReLUContext))
    requires input.Valid()
    ensures r.0.Valid() && r.0.shape == input.shape && r.1 == ReLUContext(input)
    ensures forall i :: 0 <= i < |input.data| ==>
      && r.0.data[i] >= 0 && r.0.data[i] >= input.data[i]
      && (r.0.data[i] == 0 || r.0.data[i] == input.data[i])
      && (input.data[i] >= 0 ==> r.0.data[i] == input.data[i])
  {
    (Tensor(input.shape, seq(|input.data|, i requires 0 <= i < |input.data| => Relu(input.data[i]))), ReLUContext(input))
  }

  /** Copies the incoming gradient into a fresh buffer, then zeroes the
      entries where the saved input is negative; entries where the input
      is 0 pass through. */
  method ReLUBackward(ctx: ReLUContext, grad: Tensor) returns (gradIn: Tensor)
    requires ctx.input.Valid() && grad.Valid() && grad.shape == ctx.input.shape
    ensures gradIn.Valid() && gradIn.shape == grad.shape
    ensures forall i :: 0 <= i < |grad.data| ==>
      gradIn.data[i] == if ctx.input.data[i] < 0 then 0 else grad.data[i]
  {
    var n := |grad.data|;
    var buf := new int[n](i requires 0 <= i < n => grad.data[i]);
    for i := 0 to n
      invariant forall k :: 0 <= k < i ==> buf[k] == if ctx.input.data[k] < 0 then 0 else grad.data[k]
      invariant forall k :: i <= k < n ==> buf[k] == grad.data[k]
    {
      if ctx.input.data[i] < 0 {
        buf[i] := 0;
      }
    }
    gradIn := Tensor(grad.shape, buf[..]);
  }

  /** Where the move d keeps every entry on its side of 0 (a negative entry
      stays at most 0, a non-negative one stays non-negative), ReLU is linear
      and its change, weighted by the incoming gradient, is exactly the
      backward gradient weighted by d. At 0 this is the slope from the right,
      which is why entries at 0 pass the gradient through. */
  lemma ReLUGradient(input: Tensor, grad: Tensor, gradIn: Tensor, d: seq<int>)
    requires input.Valid() && grad.Valid() && grad.shape == input.shape && |d| == |input.data|
    requires gradIn.Valid() && gradIn.shape == grad.shape
    requires forall i :: 0 <= i < |grad.data| ==>
      gradIn.data[i] == if input.data[i] < 0 then 0 else grad.data[i]
    requires forall i :: 0 <= i < |d| ==>
      (input.data[i] < 0 ==> input.data[i] + d[i] <= 0) && (input.data[i] >= 0 ==> input.data[i] + d[i] >= 0)
    ensures DotVec(grad.data, Minus(ReLUForward(Tensor(input.shape, Plus(input.data, d))).0.data,
                                    ReLUForward(input).0.data)) == DotVec(gradIn.data, d)
  {
    var after := ReLUForward(Tensor(input.shape, Plus(input.data, d))).0.data;
    var before := ReLUForward(input).0.data;
    var moved := Minus(after, before);
    forall i | 0 <= i < |d|
      ensures grad.data[i] * moved[i] == gradIn.data[i] * d[i]
    {
      assert moved[i] == if input.data[i] < 0 then 0 else d[i];
    }
    DotVecPointwise(grad.data, moved, gradIn.data, d);
  }
}

/** Sum (tinygrad/ops.py:67-77): the total of all entries as a one-element
    array, and the incoming scalar gradient broadcast back over the input. */
module SumOp {
  import opened Sums
  import opened Tensors

  /** Forward saves the whole input; backward uses only its shape. */
  datatype SumContext = SumContext(input: Tensor)

  function SumForward(input: Tensor): (r: (Tensor, SumContext))
    requires input.Valid()
    ensures r.0.Valid() && r.0.shape == [1] && r.0.data == [Total(input.data)]
    ensures r.1 == SumContext(input)
  {
    (Tensor([1], [Total(input.data)]), SumContext(input))
  }

  /** grad_output * ones_like(input): numpy broadcasts the one-element
      gradient to the input's shape (to shape (1,) when the input is 0-d). */
  function SumBackward(ctx: SumContext, grad: Tensor): (r: Tensor)
    requires ctx.input.Valid() && grad.shape == [1] && |grad.data| == 1
    ensures r.Valid() && |r.data| == |ctx.input.data|
    ensures r.shape == if ctx.input.shape == [] then [1] else ctx.input.shape
    ensures forall i :: 0 <= i < |r.data| ==> r.data[i] == grad.data[0]
  {
    var n := |ctx.input.data|;
    assert Size([1]) == 1 * Size([]) == 1;
    Tensor(if ctx.input.shape == [] then [1] else ctx.input.shape, seq(n, i requires 0 <= i < n => grad.data[0]))
  }

  lemma {:induction false} TotalPlus(a: seq<int>, d: seq<int>)
    requires |a| == |d|
    ensures Total(Plus(a, d)) == Total(a) + Total(d)
  {
    var p := Plus(a, d);
    SumAdd(|a|, (i: nat) => if i < |a| then a[i] else 0, (i: nat) => if i < |d| then d[i] else 0,
                (i: nat) => if i < |p| then p[i] else 0);
  }

  lemma {:induction false} DotVecConstant(c: int, u: seq<int>, d: seq<int>)
    requires |u| == |d| && forall i :: 0 <= i < |u| ==> u[i] == c
    ensures DotVec(u, d) == c * Total(d)
  {
    DotVecIsSum(u, d);
    SumScale(|d|, c, (i: nat) => if i < |d| then d[i] else 0, (i: nat) => if i < |u| && i < |d| then u[i] * d[i] else 0);
  }

  /** Moving the input by d moves the total by the total of d; the incoming
      gradient times that change is the broadcast gradient weighted by d. */
  lemma SumGradient(input: Tensor, grad: Tensor, d: seq<int>)
    requires input.Valid() && grad.shape == [1] && |grad.data| == 1 && |d| == |input.data|
    ensures var (out, ctx) := SumForward(input);
      var moved := Tensor(input.shape, Plus(input.data, d));
      grad.data[0] * (SumForward(moved).0.data[0] - out.data[0]) == DotVec(SumBackward(ctx, grad).data, d)
  {
    TotalPlus(input.data, d);
    var (out, ctx) := SumForward(input);
    DotVecConstant(grad.data[0], SumBackward(ctx, grad).data, d);
  }
}
