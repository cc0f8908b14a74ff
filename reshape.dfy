/** Reshape (tinygrad/ops.py:5-15): forward keeps the row-major element
    sequence and gives it a new shape, saving the input shape; backward
    reshapes the gradient back to the saved shape and gives no gradient for
    the shape argument.

    The target shape is resolved as numpy resolves it: at most one entry may
    be negative (an unknown dimension, conventionally written -1, inferred
    from the element count), every other entry is a size. */
module ReshapeOp {
  import opened Sums
  import opened Tensors

  datatype ReshapeContext = ReshapeContext(inShape: seq<nat>)

  /** Number of unknown (negative) entries in a reshape target. */
  function Unknowns(target: seq<int>): nat
  {
    if target == [] then 0 else (if target[0] < 0 then 1 else 0) + Unknowns(target[1..])
  }

  /** Product of the known (non-negative) entries of a reshape target. */
  function KnownProduct(target: seq<int>): int
  {
    if target == [] then 1 else (if target[0] < 0 then 1 else target[0]) * KnownProduct(target[1..])
  }

  /** The target with every unknown entry replaced by d. */
  function Complete(target: seq<int>, d: nat): (s: seq<nat>)
    ensures |s| == |target|
  {
    seq(|target|, i requires 0 <= i < |target| => if target[i] < 0 then d else target[i])
  }

  /** `shape` is a way of filling in the unknown entries of `target`. */
  ghost predicate Completes(shape: seq<nat>, target: seq<int>)
  {
    |shape| == |target| && forall i :: 0 <= i < |shape| && target[i] >= 0 ==> shape[i] == target[i]
  }

  /** The shape an array of `size` elements takes when reshaped to `target`,
      or the reason numpy refuses. */
  function ResolveShape(size: nat, target: seq<int>): (r: Result<seq<nat>>)
    ensures r.Ok? ==> Completes(r.value, target) && Size(r.value) == size
    ensures r.Ok? ==> Unknowns(target) <= 1
  {
    if Unknowns(target) > 1 then Err(ShapeMismatch)
    else if Unknowns(target) == 0 then
      if KnownProduct(target) == size then
        CompleteSize(target, 0);
        Ok(Complete(target, 0))
      else Err(ShapeMismatch)
    else
      var known := KnownProduct(target);
      if known > 0 && size % known == 0 then
        CompleteSize(target, size / known);
        Ok(Complete(target, size / known))
      else Err(ShapeMismatch)
  }

  /** Filling in the unknown entries with d multiplies the known product by d
      once per unknown entry. */
  lemma {:induction false} CompleteSize(target: seq<int>, d: nat)
    requires Unknowns(target) <= 1
    ensures Size(Complete(target, d)) == if Unknowns(target) == 1 then KnownProduct(target) * d else KnownProduct(target)
  {
    if target != [] {
      var s, rest := Complete(target, d), target[1..];
      assert s[1..] == Complete(rest, d);
      CompleteSize(rest, d);
      var k := KnownProduct(rest);
      assert Size(s) == s[0] * Size(Complete(rest, d));
      if target[0] < 0 {
        assert Unknowns(rest) == 0 && KnownProduct(target) == k;
        Commute(d, k);
      } else if Unknowns(rest) == 1 {
        Regroup(target[0], k, d);
      }
    }
  }

  /** Two negative entries make two unknowns. */
  lemma {:induction false} TwoUnknowns(target: seq<int>, i: nat, j: nat)
    requires i < j < |target| && target[i] < 0 && target[j] < 0
    ensures Unknowns(target) >= 2
  {
    if i == 0 {
      OneUnknown(target[1..], j - 1);
    } else {
      TwoUnknowns(target[1..], i - 1, j - 1);
    }
  }

  lemma {:induction false} OneUnknown(target: seq<int>, j: nat)
    requires j < |target| && target[j] < 0
    ensures Unknowns(target) >= 1
  {
    if j > 0 {
      OneUnknown(target[1..], j - 1);
    }
  }

  /** The position of an unknown entry. */
  lemma {:induction false} FindUnknown(target: seq<int>) returns (u: nat)
    requires Unknowns(target) >= 1
    ensures u < |target| && target[u] < 0
  {
    if target[0] < 0 {
      u := 0;
    } else {
      var rest := FindUnknown(target[1..]);
      u := rest + 1;
    }
  }

  /** The known product vanishes exactly when some entry is 0. */
  lemma {:induction false} KnownProductZero(target: seq<int>)
    ensures KnownProduct(target) >= 0
    ensures KnownProduct(target) == 0 <==> 0 in target
  {
    if target != [] {
      KnownProductZero(target[1..]);
      assert target == [target[0]] + target[1..];
    }
  }

  /** A shape filling in a target with one unknown entry is that target
      completed by the entry it puts there. */
  lemma CompletesByItsEntry(shape: seq<nat>, target: seq<int>, u: nat)
    requires Unknowns(target) == 1
    requires Completes(shape, target) && u < |target| && target[u] < 0
    ensures shape == Complete(target, shape[u])
  {
    forall i | 0 <= i < |target| && i != u
      ensures target[i] >= 0
    {
      if target[i] < 0 {
        if i < u { TwoUnknowns(target, i, u); } else { TwoUnknowns(target, u, i); }
      }
    }
  }

  /** A resolved shape is the only way of filling in the target to the
      element count. */
  lemma ResolveShapeUnique(size: nat, target: seq<int>, other: seq<nat>)
    requires ResolveShape(size, target).Ok?
    requires Completes(other, target) && Size(other) == size
    ensures other == ResolveShape(size, target).value
  {
    var s := ResolveShape(size, target).value;
    if Unknowns(target) == 0 {
      forall i | 0 <= i < |target|
        ensures target[i] >= 0
      {
        if target[i] < 0 { OneUnknown(target, i); }
      }
    } else {
      var u := FindUnknown(target);
      var known := KnownProduct(target);
      assert known > 0 && s == Complete(target, size / known);
      CompletesByItsEntry(other, target, u);
      CompleteSize(target, other[u]);
      CompleteSize(target, size / known);
      MulCancel(known, other[u], size / known);
    }
  }

  /** Whenever the target can be filled in to the element count, numpy
      resolves it, except for an unknown entry beside a zero-sized entry,
      which numpy refuses as ambiguous. */
  lemma ResolveShapeComplete(size: nat, target: seq<int>, other: seq<nat>)
    requires Unknowns(target) <= 1
    requires Completes(other, target) && Size(other) == size
    requires Unknowns(target) == 1 ==> 0 !in target
    ensures ResolveShape(size, target).Ok?
  {
    if Unknowns(target) == 0 {
      forall i | 0 <= i < |target|
        ensures target[i] >= 0
      {
        if target[i] < 0 { OneUnknown(target, i); }
      }
      assert other == Complete(target, 0);
      CompleteSize(target, 0);
    } else {
      var u := FindUnknown(target);
      CompletesByItsEntry(other, target, u);
      CompleteSize(target, other[u]);
      KnownProductZero(target);
      MultipleDivides(KnownProduct(target), other[u]);
    }
  }

  /** An unknown entry beside a zero-sized entry is refused, whatever the
      element count. */
  lemma ResolveShapeAmbiguous(size: nat, target: seq<int>)
    requires Unknowns(target) == 1 && 0 in target
    ensures ResolveShape(size, target) == Err(ShapeMismatch)
  {
    KnownProductZero(target);
  }

  /** reshape(rows, -1) of an array of rows * rest elements: a zero row
      count is refused as ambiguous, otherwise the row length is inferred. */
  lemma ReshapeToRows(rows: nat, rest: nat)
    ensures ResolveShape(rows * rest, [rows as int, -1])
      == if rows == 0 then Err(ShapeMismatch) else Ok([rows, rest])
  {
    var t := [rows as int, -1];
    assert t[1..] == [-1] && t[1..][1..] == [];
    assert Unknowns([-1]) == 1 && KnownProduct([-1]) == 1;
    if rows > 0 {
      MultipleDivides(rows, rest);
      assert Complete(t, rest) == [rows, rest];
    }
  }

  /** Every negative entry stands for the unknown dimension, whatever its
      value: replacing one negative entry by another leaves the counts of
      unknown entries and the known product alone. */
  lemma {:induction false} NegativeEntriesAlikeCounts(target: seq<int>, i: nat, v: int)
    requires i < |target| && target[i] < 0 && v < 0
    ensures Unknowns(target[i := v]) == Unknowns(target)
    ensures KnownProduct(target[i := v]) == KnownProduct(target)
  {
    if i > 0 {
      assert target[i := v][1..] == target[1..][i - 1 := v];
      NegativeEntriesAlikeCounts(target[1..], i - 1, v);
    } else {
      assert target[i := v][1..] == target[1..];
    }
  }

  /** Which negative value names the unknown dimension does not matter:
      reshape(-2, 3) resolves as reshape(-1, 3) does. */
  lemma NegativeEntriesAlike(size: nat, target: seq<int>, i: nat, v: int)
    requires i < |target| && target[i] < 0 && v < 0
    ensures ResolveShape(size, target[i := v]) == ResolveShape(size, target)
  {
    NegativeEntriesAlikeCounts(target, i, v);
    forall d: nat
      ensures Complete(target[i := v], d) == Complete(target, d)
    {
    }
  }

  /** The target that names exactly the given shape. */
  function AsTarget(shape: seq<nat>): (t: seq<int>)
    ensures |t| == |shape| && forall i :: 0 <= i < |t| ==> t[i] == shape[i]
  {
    seq(|shape|, i requires 0 <= i < |shape| => shape[i] as int)
  }

  function ReshapeForward(x: Tensor, target: seq<int>): (r: Result<(Tensor, ReshapeContext)>)
    requires x.Valid()
    ensures r.Ok? ==> r.value.0.Valid() && r.value.0.data == x.data
    ensures r.Ok? ==> Completes(r.value.0.shape, target) && r.value.1.inShape == x.shape
    ensures r.Err? == ResolveShape(|x.data|, target).Err?
  {
    match ResolveShape(|x.data|, target)
    case Ok(shape) => Ok((Tensor(shape, x.data), ReshapeContext(x.shape)))
    case Err(e) => Err(e)
  }

  /** Returns the gradient for the input and, for the shape argument, none. */
  function ReshapeBackward(ctx: ReshapeContext, grad: Tensor): (r: (Tensor, Option<Tensor>))
    requires grad.Valid() && |grad.data| == Size(ctx.inShape)
    ensures r.0.Valid() && r.0.shape == ctx.inShape && r.0.data == grad.data
    ensures r.1 == None
  {
    (Tensor(ctx.inShape, grad.data), None)
  }

  /** Reshaping to a shape and back to the original shape recovers the
      input exactly; backward through the pair returns the incoming
      gradient unchanged. */
  lemma {:induction false} ReshapeRoundTrip(x: Tensor, target: seq<int>, grad: Tensor)
    requires x.Valid() && ReshapeForward(x, target).Ok?
    requires grad.Valid() && grad.shape == x.shape
    ensures var (y, ctx1) := ReshapeForward(x, target).value;
      && ReshapeForward(y, AsTarget(x.shape)).Ok?
      && var (z, ctx2) := ReshapeForward(y, AsTarget(x.shape)).value;
      && z == x
      && ReshapeBackward(ctx1, ReshapeBackward(ctx2, grad).0).0 == grad
  {
    var (y, ctx1) := ReshapeForward(x, target).value;
    var t := AsTarget(x.shape);
    if Unknowns(t) > 0 {
      var u := FindUnknown(t);
    }
    ResolveShapeComplete(|y.data|, t, x.shape);
    var s := ResolveShape(|y.data|, t).value;
    ResolveShapeUnique(|y.data|, t, x.shape);
  }

  /** Chain rule for Reshape: moving the input by d moves the reshaped
      output by d, element for element, so the incoming gradient weighted by
      that change is the gradient backward returns weighted by d. */
  lemma ReshapeGradient(x: Tensor, target: seq<int>, grad: Tensor, d: seq<int>)
    requires x.Valid() && ReshapeForward(x, target).Ok?
    requires grad.Valid() && grad.shape == ReshapeForward(x, target).value.0.shape && |d| == |x.data|
    ensures var moved := Tensor(x.shape, Plus(x.data, d));
      && ReshapeForward(moved, target).Ok?
      && var (y, ctx) := ReshapeForward(x, target).value;
      && DotVec(grad.data, Minus(ReshapeForward(moved, target).value.0.data, y.data))
         == DotVec(ReshapeBackward(ctx, grad).0.data, d)
  {
    var moved := Tensor(x.shape, Plus(x.data, d));
    ReshapeKeepsData(x, moved, target);
    MovedBy(x.data, d);
  }

  /** Whether a target resolves depends only on the element count. */
  lemma ReshapeKeepsData(x: Tensor, x': Tensor, target: seq<int>)
    requires x.Valid() && x'.Valid() && |x'.data| == |x.data| && ReshapeForward(x, target).Ok?
    ensures ReshapeForward(x', target).Ok? && ReshapeForward(x', target).value.0.data == x'.data
  {
    assert ResolveShape(|x'.data|, target) == ResolveShape(|x.data|, target);
  }

  lemma MovedBy(a: seq<int>, d: seq<int>)
    requires |a| == |d|
    ensures Minus(Plus(a, d), a) == d
  {
  }
}
