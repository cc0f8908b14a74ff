/** 2x2 max pooling with stride 2 (tinygrad/ops.py:173-194).

    Forward stacks the four strided views x[:, :, Y::2, X::2], numbered
    Y * 2 + X, and takes for every output cell the largest of the four and
    the first view that holds it; the view numbers are saved. Backward sends
    each incoming gradient entry to the cell of its block that won and
    zero to the other three. */
module MaxPoolOp {
  import opened Sums
  import opened Tensors

  datatype MaxPoolContext = MaxPoolContext(idxs: Tensor4)

  /** The first position of a largest entry, as np.argmax chooses it. */
  function ArgMax(s: seq<int>): (i: nat)
    requires |s| > 0
    ensures i < |s|
    ensures forall j :: 0 <= j < |s| ==> s[j] <= s[i]
    ensures forall j :: 0 <= j < i ==> s[j] < s[i]
  {
    if |s| == 1 then 0
    else
      var i := ArgMax(s[..|s| - 1]);
      if s[|s| - 1] > s[i] then |s| - 1 else i
  }

  /** The largest entry, as np.max computes it. */
  function MaxOf(s: seq<int>): (m: int)
    requires |s| > 0
    ensures m in s
    ensures forall j :: 0 <= j < |s| ==> s[j] <= m
  {
    if |s| == 1 then s[0]
    else
      var m := MaxOf(s[..|s| - 1]);
      assert m in s[..|s| - 1];
      if s[|s| - 1] > m then s[|s| - 1] else m
  }

  /** The recorded winner holds the maximum. */
  lemma ArgMaxHoldsMax(s: seq<int>)
    requires |s| > 0
    ensures s[ArgMax(s)] == MaxOf(s)
  {
    var m := MaxOf(s);
    var j :| 0 <= j < |s| && s[j] == m;
  }

  /** Picking the recorded winner of a block gives its maximum. */
  lemma PickWinner(s: seq<int>)
    requires |s| > 0
    ensures Pick(s, ArgMax(s)) == MaxOf(s)
  {
    ArgMaxHoldsMax(s);
  }

  /** x[:, :, Y::2, X::2]. An odd extent leaves the views with Y or X equal
      to 0 one row or column longer than the others. */
  function Strided(x: Tensor4, Y: nat, X: nat): (r: Tensor4)
    requires Y < 2 && X < 2
    ensures r.Valid() && r.n == x.n && r.c == x.c && r.h == (x.h + 1 - Y) / 2 && r.w == (x.w + 1 - X) / 2
    ensures forall b: nat, k: nat, y: nat, xx: nat :: r.InBounds(b, k, y, xx) ==>
      r.At(b, k, y, xx) == x.At(b, k, 2 * y + Y, 2 * xx + X)
  {
    Tensor4Of(x.n, x.c, (x.h + 1 - Y) / 2, (x.w + 1 - X) / 2,
      (b: nat, k: nat, y: nat, xx: nat) => x.At(b, k, 2 * y + Y, 2 * xx + X))
  }

  /** The four cells of block (y, xx), numbered Y * 2 + X. */
  function Block(x: Tensor4, b: nat, k: nat, y: nat, xx: nat): (s: seq<int>)
    ensures |s| == 4
  {
    [x.At(b, k, 2 * y, 2 * xx), x.At(b, k, 2 * y, 2 * xx + 1),
     x.At(b, k, 2 * y + 1, 2 * xx), x.At(b, k, 2 * y + 1, 2 * xx + 1)]
  }

  /** The pooled output: the largest cell of every block. */
  function Pooled(x: Tensor4): (r: Tensor4)
    ensures r.Valid() && r.n == x.n && r.c == x.c && r.h == x.h / 2 && r.w == x.w / 2
    ensures forall b: nat, k: nat, y: nat, xx: nat :: r.InBounds(b, k, y, xx) ==>
      r.At(b, k, y, xx) == MaxOf(Block(x, b, k, y, xx))
  {
    Tensor4Of(x.n, x.c, x.h / 2, x.w / 2, (b: nat, k: nat, y: nat, xx: nat) => MaxOf(Block(x, b, k, y, xx)))
  }

  /** The saved indices: the number of the first largest cell of every block. */
  function Winners(x: Tensor4): (r: Tensor4)
    ensures r.Valid() && r.n == x.n && r.c == x.c && r.h == x.h / 2 && r.w == x.w / 2
    ensures forall b: nat, k: nat, y: nat, xx: nat :: r.InBounds(b, k, y, xx) ==>
      r.At(b, k, y, xx) == ArgMax(Block(x, b, k, y, xx))
  {
    Tensor4Of(x.n, x.c, x.h / 2, x.w / 2, (b: nat, k: nat, y: nat, xx: nat) => ArgMax(Block(x, b, k, y, xx)))
  }

  /** Entry [b, k, y, xx] of each of the four stacked views, in stack order. */
  function Column(stack: seq<Tensor4>, b: nat, k: nat, y: nat, xx: nat): (s: seq<int>)
    requires |stack| == 4
    ensures |s| == 4
  {
    [stack[0].At(b, k, y, xx), stack[1].At(b, k, y, xx), stack[2].At(b, k, y, xx), stack[3].At(b, k, y, xx)]
  }

  /** np.concatenate accepts the stack: all views have one shape. */
  predicate Concatenable(stack: seq<Tensor4>)
    requires |stack| == 4
  {
    forall q :: 0 <= q < 4 ==> stack[q].h == stack[0].h && stack[q].w == stack[0].w
  }

  /** np.max(stack, axis=0). */
  function StackMax(stack: seq<Tensor4>): (r: Tensor4)
    requires |stack| == 4
    ensures r.Valid() && r.n == stack[0].n && r.c == stack[0].c && r.h == stack[0].h && r.w == stack[0].w
    ensures forall b: nat, k: nat, y: nat, xx: nat :: r.InBounds(b, k, y, xx) ==>
      r.At(b, k, y, xx) == MaxOf(Column(stack, b, k, y, xx))
  {
    Tensor4Of(stack[0].n, stack[0].c, stack[0].h, stack[0].w,
      (b: nat, k: nat, y: nat, xx: nat) => MaxOf(Column(stack, b, k, y, xx)))
  }

  /** np.argmax(stack, axis=0). */
  function StackArgMax(stack: seq<Tensor4>): (r: Tensor4)
    requires |stack| == 4
    ensures r.Valid() && r.n == stack[0].n && r.c == stack[0].c && r.h == stack[0].h && r.w == stack[0].w
    ensures forall b: nat, k: nat, y: nat, xx: nat :: r.InBounds(b, k, y, xx) ==>
      r.At(b, k, y, xx) == ArgMax(Column(stack, b, k, y, xx))
  {
    Tensor4Of(stack[0].n, stack[0].c, stack[0].h, stack[0].w,
      (b: nat, k: nat, y: nat, xx: nat) => ArgMax(Column(stack, b, k, y, xx)))
  }

  /** The four views of x in stack order, view Y * 2 + X being x[:, :, Y::2, X::2]. */
  function Views(x: Tensor4): (s: seq<Tensor4>)
    ensures |s| == 4
  {
    [Strided(x, 0, 0), Strided(x, 0, 1), Strided(x, 1, 0), Strided(x, 1, 1)]
  }

  /** Appending view Y * 2 + X extends the stack built so far. */
  lemma StackStep(x: Tensor4, stack: seq<Tensor4>, view: Tensor4, Y: nat, X: nat)
    requires Y < 2 && X < 2 && stack == Views(x)[..2 * Y + X] && view == Strided(x, Y, X)
    ensures stack + [view] == Views(x)[..2 * Y + X + 1]
  {
    var v := Views(x);
    if Y == 0 && X == 0 {
      assert v[..1] == [v[0]];
    } else if Y == 0 {
      assert v[..2] == v[..1] + [v[1]];
    } else if X == 0 {
      assert v[..3] == v[..2] + [v[2]];
    } else {
      assert v[..4] == v[..3] + [v[3]];
    }
  }

  /** The stack of views concatenates exactly when the height and width
      are even. */
  lemma ViewStackShape(x: Tensor4)
    ensures Concatenable(Views(x)) <==> x.h % 2 == 0 && x.w % 2 == 0
  {
    var stack := Views(x);
    assert stack[0].h == (x.h + 1) / 2 && stack[3].h == x.h / 2;
    assert stack[0].w == (x.w + 1) / 2 && stack[3].w == x.w / 2;
  }

  /** Entry [b, k, y, xx] of the four views is block (y, xx) of x. */
  lemma ViewStackColumn(x: Tensor4, b: nat, k: nat, y: nat, xx: nat)
    requires b < x.n && k < x.c && y < x.h / 2 && xx < x.w / 2
    ensures Column(Views(x), b, k, y, xx) == Block(x, b, k, y, xx)
  {
    var v := Views(x);
    var p, q, r, s := v[0].At(b, k, y, xx), v[1].At(b, k, y, xx), v[2].At(b, k, y, xx), v[3].At(b, k, y, xx);
    assert Column(v, b, k, y, xx) == [p, q, r, s];
    StridedAt(x, 0, 0, b, k, y, xx);
    StridedAt(x, 0, 1, b, k, y, xx);
    StridedAt(x, 1, 0, b, k, y, xx);
    StridedAt(x, 1, 1, b, k, y, xx);
  }

  lemma StridedAt(x: Tensor4, Y: nat, X: nat, b: nat, k: nat, y: nat, xx: nat)
    requires Y < 2 && X < 2 && b < x.n && k < x.c && y < x.h / 2 && xx < x.w / 2
    ensures Strided(x, Y, X).At(b, k, y, xx) == x.At(b, k, 2 * y + Y, 2 * xx + X)
  {
    assert Strided(x, Y, X).InBounds(b, k, y, xx);
  }

  /** Reducing a concatenable stack of views gives the pooled output. */
  lemma ReduceViewStackMax(x: Tensor4)
    requires Concatenable(Views(x))
    ensures StackMax(Views(x)) == Pooled(x)
  {
    var v := Views(x);
    ViewStackShape(x);
    assert v[0] == Strided(x, 0, 0);
    forall b: nat, k: nat, y: nat, xx: nat | StackMax(v).InBounds(b, k, y, xx)
      ensures StackMax(v).At(b, k, y, xx) == Pooled(x).At(b, k, y, xx)
    {
      ViewStackColumn(x, b, k, y, xx);
    }
    Tensor4Ext(StackMax(v), Pooled(x));
  }

  /** Reducing a concatenable stack of views gives the winners. */
  lemma ReduceViewStackArgMax(x: Tensor4)
    requires Concatenable(Views(x))
    ensures StackArgMax(Views(x)) == Winners(x)
  {
    var v := Views(x);
    ViewStackShape(x);
    assert v[0] == Strided(x, 0, 0);
    forall b: nat, k: nat, y: nat, xx: nat | StackArgMax(v).InBounds(b, k, y, xx)
      ensures StackArgMax(v).At(b, k, y, xx) == Winners(x).At(b, k, y, xx)
    {
      ViewStackColumn(x, b, k, y, xx);
    }
    Tensor4Ext(StackArgMax(v), Winners(x));
  }

  /** The loop of forward that collects the four strided views, in order
      Y = 0, 1 outside and X = 0, 1 inside. */
  method StackViews(x: Tensor4) returns (stack: seq<Tensor4>)
    ensures stack == Views(x)
  {
    stack := [];
    for Y := 0 to 2
      invariant stack == Views(x)[..2 * Y]
    {
      stack := StackRow(x, stack, Y);
    }
    assert Views(x)[..4] == Views(x);
  }

  /** The inner loop: the two views of row parity Y. */
  method StackRow(x: Tensor4, stack0: seq<Tensor4>, Y: nat) returns (stack: seq<Tensor4>)
    requires Y < 2 && stack0 == Views(x)[..2 * Y]
    ensures stack == Views(x)[..2 * Y + 2]
  {
    stack := stack0;
    for X := 0 to 2
      invariant stack == Views(x)[..2 * Y + X]
    {
      var view := Strided(x, Y, X);
      StackStep(x, stack, view, Y, X);
      stack := stack + [view];
    }
  }

  /** MaxPool2x2.forward: the pooled output and the saved winners, or, on an
      odd height or width, the refusal of np.concatenate. */
  method MaxPoolForward(x: Tensor4) returns (r: Result<(Tensor4, MaxPoolContext)>)
    requires x.Valid()
    ensures r.Err? <==> x.h % 2 == 1 || x.w % 2 == 1
    ensures r.Err? ==> r.error == ShapeMismatch
    ensures r.Ok? ==> r.value == (Pooled(x), MaxPoolContext(Winners(x)))
  {
    var stack := StackViews(x);
    ViewStackShape(x);
    if !Concatenable(stack) {
      return Err(ShapeMismatch);
    }
    ReduceViewStackMax(x);
    ReduceViewStackArgMax(x);
    var idxs := StackArgMax(stack);
    return Ok((StackMax(stack), MaxPoolContext(idxs)));
  }

  /** Cell [b, k, yy, xx] of the routed gradient: the gradient of its block
      if the saved index names this cell, 0 otherwise. */
  function Routed(idxs: Tensor4, g: Tensor4, b: nat, k: nat, yy: nat, xx: nat): int
  {
    if idxs.At(b, k, yy / 2, xx / 2) == 2 * (yy % 2) + xx % 2 then g.At(b, k, yy / 2, xx / 2) else 0
  }

  /** The input gradient: twice the height and width of the incoming one. */
  function Unpool(idxs: Tensor4, g: Tensor4): (r: Tensor4)
    ensures r.Valid() && r.n == g.n && r.c == g.c && r.h == 2 * g.h && r.w == 2 * g.w
    ensures forall b: nat, k: nat, yy: nat, xx: nat :: r.InBounds(b, k, yy, xx) ==>
      r.At(b, k, yy, xx) == Routed(idxs, g, b, k, yy, xx)
  {
    Tensor4Of(g.n, g.c, 2 * g.h, 2 * g.w, (b: nat, k: nat, yy: nat, xx: nat) => Routed(idxs, g, b, k, yy, xx))
  }

  /** The cells of ret in views 0 .. Y * 2 + X - 1 hold the routed gradient. */
  ghost predicate RoutedSoFar(ret: array4<int>, idxs: Tensor4, g: Tensor4, Y: nat, X: nat)
    reads ret
  {
    && ret.Length0 == g.n && ret.Length1 == g.c && ret.Length2 == 2 * g.h && ret.Length3 == 2 * g.w
    && forall b, k, yy, xx ::
         0 <= b < ret.Length0 && 0 <= k < ret.Length1 && 0 <= yy < ret.Length2 && 0 <= xx < ret.Length3
         && (yy % 2 < Y || (yy % 2 == Y && xx % 2 < X)) ==>
         ret[b, k, yy, xx] == Routed(idxs, g, b, k, yy, xx)
  }

  /** ret[:, :, Y::2, X::2] = grad * (idxs == Y * 2 + X). */
  method RouteView(ret: array4<int>, idxs: Tensor4, grad: Tensor4, Y: nat, X: nat)
    requires Y < 2 && X < 2 && RoutedSoFar(ret, idxs, grad, Y, X)
    modifies ret
    ensures RoutedSoFar(ret, idxs, grad, Y, X + 1)
    ensures forall b, k, yy, xx ::
      0 <= b < ret.Length0 && 0 <= k < ret.Length1 && 0 <= yy < ret.Length2 && 0 <= xx < ret.Length3 && (yy % 2 != Y || xx % 2 != X) ==>
      ret[b, k, yy, xx] == old(ret[b, k, yy, xx])
  {
    var n, c, h, w := ret.Length0, ret.Length1, ret.Length2, ret.Length3;
    forall b, k, yy, xx | 0 <= b < n && 0 <= k < c && 0 <= yy < h && 0 <= xx < w && yy % 2 == Y && xx % 2 == X {
      ret[b, k, yy, xx] := grad.At(b, k, yy / 2, xx / 2) * (if idxs.At(b, k, yy / 2, xx / 2) == Y * 2 + X then 1 else 0);
    }
  }

  /** Having done both views of row parity Y, the next parity starts. */
  lemma RoutedNextParity(ret: array4<int>, idxs: Tensor4, g: Tensor4, Y: nat)
    requires RoutedSoFar(ret, idxs, g, Y, 2)
    ensures RoutedSoFar(ret, idxs, g, Y + 1, 0)
  {
  }

  /** Once all four views are done, ret holds the unpooled gradient. */
  lemma RoutedDone(ret: array4<int>, t: Tensor4, idxs: Tensor4, g: Tensor4)
    requires RoutedSoFar(ret, idxs, g, 2, 0)
    requires t.Valid() && t.n == ret.Length0 && t.c == ret.Length1 && t.h == ret.Length2 && t.w == ret.Length3
    requires forall b, k, y, x :: t.InBounds(b, k, y, x) ==> t.At(b, k, y, x) == ret[b, k, y, x]
    ensures t == Unpool(idxs, g)
  {
    var u := Unpool(idxs, g);
    forall b: nat, k: nat, yy: nat, xx: nat | t.InBounds(b, k, yy, xx)
      ensures t.At(b, k, yy, xx) == u.At(b, k, yy, xx)
    {
      assert yy % 2 < 2;
    }
    Tensor4Ext(t, u);
  }

  /** MaxPool2x2.backward: ret starts at zero, and for each of the four view
      numbers, the view ret[:, :, Y::2, X::2] receives the gradient where the
      saved index is that number and 0 elsewhere. */
  method MaxPoolBackward(ctx: MaxPoolContext, grad: Tensor4) returns (gradIn: Tensor4)
    requires grad.Valid()
    requires ctx.idxs.n == grad.n && ctx.idxs.c == grad.c && ctx.idxs.h == grad.h && ctx.idxs.w == grad.w
    ensures gradIn == Unpool(ctx.idxs, grad)
  {
    var ret := new int[grad.n, grad.c, 2 * grad.h, 2 * grad.w]((b, k, yy, xx) => 0);
    for Y := 0 to 2
      invariant RoutedSoFar(ret, ctx.idxs, grad, Y, 0)
    {
      for X := 0 to 2
        invariant RoutedSoFar(ret, ctx.idxs, grad, Y, X)
      {
        RouteView(ret, ctx.idxs, grad, Y, X);
      }
      RoutedNextParity(ret, ctx.idxs, grad, Y);
    }
    gradIn := Freeze(ret);
    RoutedDone(ret, gradIn, ctx.idxs, grad);
  }

  // ---------------------------------------------------------------------
  // Where the gradient goes

  /** Every block of the routed gradient holds, in total, the incoming
      gradient of that block, whenever the saved index names one of its
      four cells. */
  lemma BlockSum(idxs: Tensor4, g: Tensor4, b: nat, k: nat, y: nat, xx: nat)
    requires 0 <= idxs.At(b, k, y, xx) < 4
    ensures Routed(idxs, g, b, k, 2 * y, 2 * xx) + Routed(idxs, g, b, k, 2 * y, 2 * xx + 1)
      + Routed(idxs, g, b, k, 2 * y + 1, 2 * xx) + Routed(idxs, g, b, k, 2 * y + 1, 2 * xx + 1) == g.At(b, k, y, xx)
  {
    assert (2 * y + 1) / 2 == y && (2 * y + 1) % 2 == 1;
    assert (2 * xx + 1) / 2 == xx && (2 * xx + 1) % 2 == 1;
  }

  /** A tensor holding the routed gradient of g under idxs. */
  ghost predicate IsRouted(u: Tensor4, idxs: Tensor4, g: Tensor4)
  {
    && u.n == g.n && u.c == g.c && u.h == 2 * g.h && u.w == 2 * g.w
    && forall b: nat, k: nat, yy: nat, xx: nat :: u.InBounds(b, k, yy, xx) ==> u.At(b, k, yy, xx) == Routed(idxs, g, b, k, yy, xx)
  }

  /** Cell q of a block, 0 when q names none of its cells. */
  function Pick(s: seq<int>, q: int): int
  {
    if 0 <= q < |s| then s[q] else 0
  }

  /** The cells of d that the saved indices name, one per block. */
  function Gather(idxs: Tensor4, d: Tensor4): (r: Tensor4)
    ensures r.Valid() && r.n == idxs.n && r.c == idxs.c && r.h == idxs.h && r.w == idxs.w
    ensures forall b: nat, k: nat, y: nat, xx: nat :: r.InBounds(b, k, y, xx) ==>
      r.At(b, k, y, xx) == Pick(Block(d, b, k, y, xx), idxs.At(b, k, y, xx))
  {
    Tensor4Of(idxs.n, idxs.c, idxs.h, idxs.w,
      (b: nat, k: nat, y: nat, xx: nat) => Pick(Block(d, b, k, y, xx), idxs.At(b, k, y, xx)))
  }

  /** A tensor holding the cells of d that idxs names. */
  ghost predicate IsGathered(e: Tensor4, idxs: Tensor4, d: Tensor4)
  {
    && e.n == idxs.n && e.c == idxs.c && e.h == idxs.h && e.w == idxs.w
    && forall b: nat, k: nat, y: nat, xx: nat :: e.InBounds(b, k, y, xx) ==>
      e.At(b, k, y, xx) == Pick(Block(d, b, k, y, xx), idxs.At(b, k, y, xx))
  }

  /** Gathering the winners of x from x itself gives the pooled output. */
  lemma GatherWinners(x: Tensor4)
    ensures Gather(Winners(x), x) == Pooled(x)
  {
    var w, e, p := Winners(x), Gather(Winners(x), x), Pooled(x);
    forall b: nat, k: nat, y: nat, xx: nat | p.InBounds(b, k, y, xx)
      ensures e.At(b, k, y, xx) == p.At(b, k, y, xx)
    {
      var s := Block(x, b, k, y, xx);
      assert w.At(b, k, y, xx) == ArgMax(s);
      PickWinner(s);
    }
    Tensor4Ext(e, p);
  }

  /** Products of a and d at the two cells 2c and 2c + 1 of row yy. */
  function PairInner(a: Tensor4, d: Tensor4, i: nat, k: nat, yy: nat, c: nat): int
  {
    a.At(i, k, yy, 2 * c) * d.At(i, k, yy, 2 * c) + a.At(i, k, yy, 2 * c + 1) * d.At(i, k, yy, 2 * c + 1)
  }

  lemma RowInPairs(a: Tensor4, d: Tensor4, i: nat, k: nat, yy: nat, half: nat)
    requires a.w == 2 * half
    ensures InnerRow(a, d, i, k, yy) == Sum(half, (c: nat) => PairInner(a, d, i, k, yy, c))
  {
    SumPairs(half, (xx: nat) => a.At(i, k, yy, xx) * d.At(i, k, yy, xx), (c: nat) => PairInner(a, d, i, k, yy, c));
  }

  /** One block: the routed gradient weighted by d is the incoming gradient
      weighted by the gathered cell. */
  lemma BlockAdjoint(u: Tensor4, e: Tensor4, idxs: Tensor4, g: Tensor4, d: Tensor4, i: nat, k: nat, y: nat, c: nat)
    requires IsRouted(u, idxs, g) && IsGathered(e, idxs, d)
    requires g.InBounds(i, k, y, c) && idxs.n == g.n && idxs.c == g.c && idxs.h == g.h && idxs.w == g.w
    ensures PairInner(u, d, i, k, 2 * y, c) + PairInner(u, d, i, k, 2 * y + 1, c) == g.At(i, k, y, c) * e.At(i, k, y, c)
  {
    var q, v, blk := idxs.At(i, k, y, c), g.At(i, k, y, c), Block(d, i, k, y, c);
    assert (2 * y + 1) / 2 == y && (2 * y + 1) % 2 == 1;
    assert (2 * c + 1) / 2 == c && (2 * c + 1) % 2 == 1;
    assert u.InBounds(i, k, 2 * y, 2 * c) && u.At(i, k, 2 * y, 2 * c) == if q == 0 then v else 0;
    assert u.InBounds(i, k, 2 * y, 2 * c + 1) && u.At(i, k, 2 * y, 2 * c + 1) == if q == 1 then v else 0;
    assert u.InBounds(i, k, 2 * y + 1, 2 * c) && u.At(i, k, 2 * y + 1, 2 * c) == if q == 2 then v else 0;
    assert u.InBounds(i, k, 2 * y + 1, 2 * c + 1) && u.At(i, k, 2 * y + 1, 2 * c + 1) == if q == 3 then v else 0;
    assert e.InBounds(i, k, y, c) && e.At(i, k, y, c) == Pick(blk, q);
    if q == 0 {
    } else if q == 1 {
    } else if q == 2 {
    } else if q == 3 {
    }
  }

  lemma PlaneAdjoint(u: Tensor4, e: Tensor4, idxs: Tensor4, g: Tensor4, d: Tensor4, i: nat, k: nat)
    requires IsRouted(u, idxs, g) && IsGathered(e, idxs, d)
    requires i < g.n && k < g.c && idxs.n == g.n && idxs.c == g.c && idxs.h == g.h && idxs.w == g.w
    ensures InnerPlane(u, d, i, k) == InnerPlane(g, e, i, k)
  {
    forall y: nat | y < g.h
      ensures InnerRow(u, d, i, k, 2 * y) + InnerRow(u, d, i, k, 2 * y + 1) == InnerRow(g, e, i, k, y)
    {
      RowPairAdjoint(u, e, idxs, g, d, i, k, y);
    }
    SumPairs(g.h, (yy: nat) => InnerRow(u, d, i, k, yy), (y: nat) => InnerRow(g, e, i, k, y));
  }

  lemma RowPairAdjoint(u: Tensor4, e: Tensor4, idxs: Tensor4, g: Tensor4, d: Tensor4, i: nat, k: nat, y: nat)
    requires IsRouted(u, idxs, g) && IsGathered(e, idxs, d)
    requires i < g.n && k < g.c && y < g.h && idxs.n == g.n && idxs.c == g.c && idxs.h == g.h && idxs.w == g.w
    ensures InnerRow(u, d, i, k, 2 * y) + InnerRow(u, d, i, k, 2 * y + 1) == InnerRow(g, e, i, k, y)
  {
    RowInPairs(u, d, i, k, 2 * y, g.w);
    RowInPairs(u, d, i, k, 2 * y + 1, g.w);
    forall c: nat | c < g.w
      ensures PairInner(u, d, i, k, 2 * y, c) + PairInner(u, d, i, k, 2 * y + 1, c) == g.At(i, k, y, c) * e.At(i, k, y, c)
    {
      BlockAdjoint(u, e, idxs, g, d, i, k, y, c);
    }
    SumAdd(g.w, (c: nat) => PairInner(u, d, i, k, 2 * y, c), (c: nat) => PairInner(u, d, i, k, 2 * y + 1, c),
      (c: nat) => g.At(i, k, y, c) * e.At(i, k, y, c));
  }

  /** The backward pass is the adjoint of gathering at the saved indices:
      the routed gradient weighted by any d equals the incoming gradient
      weighted by the cells of d that the indices name. */
  lemma UnpoolAdjoint(idxs: Tensor4, g: Tensor4, d: Tensor4)
    requires idxs.n == g.n && idxs.c == g.c && idxs.h == g.h && idxs.w == g.w
    ensures Inner4(Unpool(idxs, g), d) == Inner4(g, Gather(idxs, d))
  {
    var u, e := Unpool(idxs, g), Gather(idxs, d);
    assert IsRouted(u, idxs, g) && IsGathered(e, idxs, d);
    InnerAdjoint(u, e, idxs, g, d);
  }

  lemma InnerAdjoint(u: Tensor4, e: Tensor4, idxs: Tensor4, g: Tensor4, d: Tensor4)
    requires IsRouted(u, idxs, g) && IsGathered(e, idxs, d)
    requires idxs.n == g.n && idxs.c == g.c && idxs.h == g.h && idxs.w == g.w
    ensures Inner4(u, d) == Inner4(g, e)
  {
    forall i: nat | i < g.n
      ensures InnerBatch(u, d, i) == InnerBatch(g, e, i)
    {
      forall k: nat | k < g.c
        ensures InnerPlane(u, d, i, k) == InnerPlane(g, e, i, k)
      {
        PlaneAdjoint(u, e, idxs, g, d, i, k);
      }
      SumExt(g.c, (k: nat) => InnerPlane(u, d, i, k), (k: nat) => InnerPlane(g, e, i, k));
    }
    SumExt(g.n, (i: nat) => InnerBatch(u, d, i), (i: nat) => InnerBatch(g, e, i));
  }

  /** MaxPool2x2 backward against forward: the routed gradient weighted by
      the input equals the incoming gradient weighted by the pooled output. */
  lemma MaxPoolAdjoint(x: Tensor4, g: Tensor4)
    requires x.h % 2 == 0 && x.w % 2 == 0
    requires g.n == x.n && g.c == x.c && g.h == x.h / 2 && g.w == x.w / 2
    ensures Inner4(Unpool(Winners(x), g), x) == Inner4(g, Pooled(x))
  {
    UnpoolAdjoint(Winners(x), g, x);
    GatherWinners(x);
  }
}
