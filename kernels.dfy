/**
 * Covariance kernels as a binary expression tree: the base kernel, the two
 * operators (Sum and Product) that own two child kernels, and the two
 * families of leaf kernels (stationary ones, driven by a Metric, and
 * non-stationary ones, summed over the axes of a Subspace).
 *
 * The tree's shape is fixed once it is built; what changes in place is the
 * parameter storage of the leaves (each leaf's own hyperparameters and its
 * metric's parameters), so leaves hold that storage as arrays. The concrete
 * kernel formulas are function values carried by each leaf.
 */
module Kernels {
  import opened Collaborators

  /** A stationary formula: own parameters and the squared distance r2 to a real. */
  type RadialFormula = (seq<real>, real) -> real

  /**
   * The formulas of one stationary kernel: its value, one derivative per own
   * parameter, and the radial derivative d(value)/d(r2).
   */
  datatype RadialShape = RadialShape(value: RadialFormula, grads: seq<RadialFormula>, radial: RadialFormula)

  /** A non-stationary formula: own parameters and one coordinate of each point to a real. */
  type AxisFormula = (seq<real>, real, real) -> real

  /** The formulas of one non-stationary kernel: its per-axis value and one per-axis derivative per own parameter. */
  datatype AxisShape = AxisShape(value: AxisFormula, grads: seq<AxisFormula>)

  datatype Kernel =
    | Base
    | Sum(k1: Kernel, k2: Kernel)
    | Product(k1: Kernel, k2: Kernel)
    | Stationary(shape: RadialShape, own: array<real>, metric: Metric)
    | NonStationary(profile: AxisShape, own: array<real>, subspace: Subspace)
  {
    /** Sum and Product share the operator's parameter-vector logic. */
    predicate IsOperator() {
      Sum? || Product?
    }
  }

  /** The parameter storage a kernel tree owns. */
  ghost function Repr(k: Kernel): set<object> {
    match k
    case Base => {}
    case Sum(k1, k2) => Repr(k1) + Repr(k2)
    case Product(k1, k2) => Repr(k1) + Repr(k2)
    case Stationary(_, own, metric) => {own, metric.params}
    case NonStationary(_, own, _) => {own}
  }

  /**
   * Exclusive ownership: no two nodes share storage, and every leaf has one
   * derivative formula per parameter slot.
   */
  ghost predicate Valid(k: Kernel) {
    match k
    case Base => true
    case Sum(k1, k2) => Valid(k1) && Valid(k2) && Repr(k1) !! Repr(k2)
    case Product(k1, k2) => Valid(k1) && Valid(k2) && Repr(k1) !! Repr(k2)
    case Stationary(shape, own, metric) =>
      own != metric.params && |shape.grads| == own.Length && metric.Valid()
    case NonStationary(profile, own, _) => |profile.grads| == own.Length
  }

  /** Every axis a subspace selects indexes into both points. */
  ghost predicate AxesFit(axes: seq<nat>, x1: seq<real>, x2: seq<real>) {
    forall i :: 0 <= i < |axes| ==> axes[i] < |x1| && axes[i] < |x2|
  }

  /** The points are long enough for every non-stationary leaf of the tree. */
  ghost predicate Fits(k: Kernel, x1: seq<real>, x2: seq<real>) {
    match k
    case Sum(k1, k2) => Fits(k1, x1, x2) && Fits(k2, x1, x2)
    case Product(k1, k2) => Fits(k1, x1, x2) && Fits(k2, x1, x2)
    case NonStationary(_, _, subspace) => AxesFit(subspace.axes, x1, x2)
    case _ => true
  }

  /** The storage a tree owns is allocated, so a call that modifies none of it leaves it unchanged. */
  lemma ReprAllocated(k: Kernel)
    ensures forall o :: o in Repr(k) ==> allocated(o)
  {
    match k
    case Sum(k1, k2) => ReprAllocated(k1); ReprAllocated(k2);
    case Product(k1, k2) => ReprAllocated(k1); ReprAllocated(k2);
    case _ =>
  }

  /** Number of entries of the node's flattened parameter vector. */
  function Size(k: Kernel): nat {
    match k
    case Base => 0
    case Sum(k1, k2) => Size(k1) + Size(k2)
    case Product(k1, k2) => Size(k1) + Size(k2)
    case Stationary(_, own, metric) => own.Length + metric.Size()
    case NonStationary(_, own, _) => own.Length
  }

  /** Input dimensionality: an operator takes its first child's. */
  function Ndim(k: Kernel): nat {
    match k
    case Base => 0
    case Sum(k1, _) => Ndim(k1)
    case Product(k1, _) => Ndim(k1)
    case Stationary(_, _, metric) => metric.ndim
    case NonStationary(_, _, subspace) => subspace.ndim
  }

  // ---------------------------------------------------------------------------
  // Specification functions
  // ---------------------------------------------------------------------------

  /**
   * The flattened parameter vector: an operator's is its first child's
   * followed by its second child's; a stationary leaf's is its own parameters
   * followed by its metric's; a non-stationary leaf's is its own parameters.
   */
  ghost function Params(k: Kernel): (ps: seq<real>)
    reads Repr(k)
    ensures |ps| == Size(k)
  {
    match k
    case Base => []
    case Sum(k1, k2) => Params(k1) + Params(k2)
    case Product(k1, k2) => Params(k1) + Params(k2)
    case Stationary(_, own, metric) => own[..] + metric.params[..]
    case NonStationary(_, own, _) => own[..]
  }

  /** Sum, in axis order, of one per-axis formula over the selected axes. */
  ghost function AxisSum(f: AxisFormula, ps: seq<real>, axes: seq<nat>, x1: seq<real>, x2: seq<real>): real
    requires AxesFit(axes, x1, x2)
    decreases |axes|
  {
    if |axes| == 0 then 0.0
    else
      var last := axes[|axes| - 1];
      AxisSum(f, ps, axes[..|axes| - 1], x1, x2) + f(ps, x1[last], x2[last])
  }

  /** The covariance the tree defines between two points. */
  ghost function Value(k: Kernel, x1: seq<real>, x2: seq<real>): real
    reads Repr(k)
    requires Fits(k, x1, x2)
  {
    match k
    case Base => 0.0
    case Sum(k1, k2) => Value(k1, x1, x2) + Value(k2, x1, x2)
    case Product(k1, k2) => Value(k1, x1, x2) * Value(k2, x1, x2)
    case Stationary(shape, own, metric) => shape.value(own[..], metric.Value(x1, x2))
    case NonStationary(profile, own, subspace) => AxisSum(profile.value, own[..], subspace.axes, x1, x2)
  }

  /** Every entry of a vector multiplied by c. */
  ghost function Scale(s: seq<real>, c: real): (r: seq<real>)
    ensures |r| == |s|
  {
    seq(|s|, i requires 0 <= i < |s| => s[i] * c)
  }

  /** Each own parameter's derivative formula at the given parameters and squared distance. */
  ghost function OwnRadialDerivatives(shape: RadialShape, ps: seq<real>, r2: real): (d: seq<real>)
    ensures |d| == |shape.grads|
  {
    seq(|shape.grads|, p requires 0 <= p < |shape.grads| => shape.grads[p](ps, r2))
  }

  /**
   * The gradient vector, indexed like Params: a sum concatenates its
   * children's gradients, a product scales each child's by the other child's
   * value, a stationary leaf rescales its metric's derivatives by the radial
   * derivative, and a non-stationary leaf sums per-axis derivatives.
   */
  ghost function GradientSpec(k: Kernel, x1: seq<real>, x2: seq<real>): (g: seq<real>)
    reads Repr(k)
    requires Valid(k) && Fits(k, x1, x2)
    ensures |g| == Size(k)
  {
    match k
    case Base => []
    case Sum(k1, k2) => GradientSpec(k1, x1, x2) + GradientSpec(k2, x1, x2)
    case Product(k1, k2) =>
      Scale(GradientSpec(k1, x1, x2), Value(k2, x1, x2)) + Scale(GradientSpec(k2, x1, x2), Value(k1, x1, x2))
    case Stationary(shape, own, metric) =>
      var ps, r2 := own[..], metric.Value(x1, x2);
      OwnRadialDerivatives(shape, ps, r2) + Scale(metric.Derivatives(x1, x2), shape.radial(ps, r2))
    case NonStationary(profile, own, subspace) =>
      var ps, axes := own[..], subspace.axes;
      seq(|profile.grads|, p requires 0 <= p < |profile.grads| && AxesFit(axes, x1, x2) =>
        AxisSum(profile.grads[p], ps, axes, x1, x2))
  }

  // ---------------------------------------------------------------------------
  // get_parameter
  // ---------------------------------------------------------------------------

  /** Reads parameter i of the flattened vector; indices past the end read 0.0. */
  function GetParameter(k: Kernel, i: nat): (r: real)
    reads Repr(k)
    ensures i < Size(k) ==> r == Params(k)[i]
    ensures Size(k) <= i ==> r == 0.0
    decreases k, 1
  {
    match k
    case Base => 0.0
    case Sum(_, _) => OperatorGetParameter(k, i)
    case Product(_, _) => OperatorGetParameter(k, i)
    case Stationary(_, _, _) => StationaryGetParameter(k, i)
    case NonStationary(_, _, _) => NonStationaryGetParameter(k, i)
  }

  /** Index i below the first child's size goes to it; any other to the second child at i - n1. */
  function OperatorGetParameter(k: Kernel, i: nat): (r: real)
    requires k.IsOperator()
    reads Repr(k)
    ensures i < Size(k) ==> r == Params(k)[i]
    ensures Size(k) <= i ==> r == 0.0
    decreases k, 0
  {
    var n := Size(k.k1);
    if i < n then GetParameter(k.k1, i) else GetParameter(k.k2, i - n)
  }

  /** Own parameters first, then the metric's at i - (number of own parameters). */
  function StationaryGetParameter(k: Kernel, i: nat): (r: real)
    requires k.Stationary?
    reads Repr(k)
    ensures i < Size(k) ==> r == Params(k)[i]
    ensures Size(k) <= i ==> r == 0.0
  {
    if i < k.own.Length then k.own[i] else k.metric.GetParameter(i - k.own.Length)
  }

  /** Own parameters only; out of range reads 0.0. */
  function NonStationaryGetParameter(k: Kernel, i: nat): (r: real)
    requires k.NonStationary?
    reads Repr(k)
    ensures i < Size(k) ==> r == Params(k)[i]
    ensures Size(k) <= i ==> r == 0.0
  {
    if i < k.own.Length then k.own[i] else 0.0
  }

  // ---------------------------------------------------------------------------
  // set_parameter
  // ---------------------------------------------------------------------------

  /**
   * Writes parameter i of the flattened vector: for i < Size(k) exactly that
   * entry becomes v; an index past the end changes nothing.
   */
  method SetParameter(k: Kernel, i: nat, v: real)
    requires Valid(k)
    modifies Repr(k)
    ensures Params(k) == if i < Size(k) then old(Params(k))[i := v] else old(Params(k))
    ensures i < Size(k) ==> GetParameter(k, i) == v
    ensures forall j :: j != i ==> GetParameter(k, j) == old(GetParameter(k, j))
    decreases k, 1
  {
    match k
    case Base =>
    case Sum(_, _) => OperatorSetParameter(k, i, v);
    case Product(_, _) => OperatorSetParameter(k, i, v);
    case Stationary(_, _, _) => StationarySetParameter(k, i, v);
    case NonStationary(_, _, _) => NonStationarySetParameter(k, i, v);
  }

  method OperatorSetParameter(k: Kernel, i: nat, v: real)
    requires k.IsOperator() && Valid(k)
    modifies Repr(k)
    ensures Params(k) == if i < Size(k) then old(Params(k))[i := v] else old(Params(k))
    decreases k, 0
  {
    ReprAllocated(k);
    var n := Size(k.k1);
    if i < n {
      SetParameter(k.k1, i, v);
      assert Params(k) == old(Params(k.k1))[i := v] + old(Params(k.k2));
    } else {
      SetParameter(k.k2, i - n, v);
    }
  }

  method StationarySetParameter(k: Kernel, i: nat, v: real)
    requires k.Stationary? && Valid(k)
    modifies Repr(k)
    ensures Params(k) == if i < Size(k) then old(Params(k))[i := v] else old(Params(k))
  {
    if i < k.own.Length {
      k.own[i] := v;
    } else {
      k.metric.SetParameter(i - k.own.Length, v);
    }
  }

  method NonStationarySetParameter(k: Kernel, i: nat, v: real)
    requires k.NonStationary? && Valid(k)
    modifies Repr(k)
    ensures Params(k) == if i < Size(k) then old(Params(k))[i := v] else old(Params(k))
  {
    if i < k.own.Length {
      k.own[i] := v;
    }
  }

  // ---------------------------------------------------------------------------
  // value
  // ---------------------------------------------------------------------------

  /** The covariance between x1 and x2; the base kernel's is 0.0. */
  method Evaluate(k: Kernel, x1: seq<real>, x2: seq<real>) returns (v: real)
    requires Fits(k, x1, x2)
    ensures v == Value(k, x1, x2)
    decreases k, 1
  {
    match k
    case Base => v := 0.0;
    case Sum(_, _) => v := SumEvaluate(k, x1, x2);
    case Product(_, _) => v := ProductEvaluate(k, x1, x2);
    case Stationary(_, _, _) => v := StationaryEvaluate(k, x1, x2);
    case NonStationary(_, _, _) => v := NonStationaryEvaluate(k, x1, x2);
  }

  method SumEvaluate(k: Kernel, x1: seq<real>, x2: seq<real>) returns (v: real)
    requires k.Sum? && Fits(k, x1, x2)
    ensures v == Value(k.k1, x1, x2) + Value(k.k2, x1, x2)
    decreases k, 0
  {
    ReprAllocated(k.k1);
    var v1 := Evaluate(k.k1, x1, x2);
    var v2 := Evaluate(k.k2, x1, x2);
    v := v1 + v2;
  }

  method ProductEvaluate(k: Kernel, x1: seq<real>, x2: seq<real>) returns (v: real)
    requires k.Product? && Fits(k, x1, x2)
    ensures v == Value(k.k1, x1, x2) * Value(k.k2, x1, x2)
    decreases k, 0
  {
    ReprAllocated(k.k1);
    var v1 := Evaluate(k.k1, x1, x2);
    var v2 := Evaluate(k.k2, x1, x2);
    v := v1 * v2;
  }

  /** The formula evaluated at the current own parameters and the metric's squared distance. */
  method StationaryEvaluate(k: Kernel, x1: seq<real>, x2: seq<real>) returns (v: real)
    requires k.Stationary?
    ensures v == k.shape.value(k.own[..], k.metric.Value(x1, x2))
  {
    var r2 := k.metric.Value(x1, x2);
    v := k.shape.value(k.own[..], r2);
  }

  /** Accumulates the per-axis formula over the selected axes, in order, from 0.0. */
  method NonStationaryEvaluate(k: Kernel, x1: seq<real>, x2: seq<real>) returns (v: real)
    requires k.NonStationary? && Fits(k, x1, x2)
    ensures v == AxisSum(k.profile.value, k.own[..], k.subspace.axes, x1, x2)
  {
    var n := k.subspace.NAxes();
    v := 0.0;
    for i := 0 to n
      invariant v == AxisSum(k.profile.value, k.own[..], k.subspace.axes[..i], x1, x2)
    {
      var j := k.subspace.Axis(i);
      assert k.subspace.axes[..i + 1][..i] == k.subspace.axes[..i];
      v := v + k.profile.value(k.own[..], x1[j], x2[j]);
    }
    assert k.subspace.axes[..n] == k.subspace.axes;
  }


  // ---------------------------------------------------------------------------
  // gradient
  // ---------------------------------------------------------------------------

  /** Every entry of grad outside [lo, hi) is as it was in `before`. */
  ghost predicate OutsideUnchanged(grad: array<real>, before: seq<real>, lo: nat, hi: nat)
    reads grad
  {
    |before| == grad.Length
    && forall j :: 0 <= j < grad.Length && !(lo <= j < hi) ==> grad[j] == before[j]
  }

  /**
   * Writes the gradient into grad[off .. off + Size(k)), indexed like the
   * parameter vector, and leaves every other entry of grad as it was.
   */
  method Gradient(k: Kernel, x1: seq<real>, x2: seq<real>, grad: array<real>, off: nat)
    requires Valid(k) && Fits(k, x1, x2)
    requires off + Size(k) <= grad.Length && grad !in Repr(k)
    modifies grad
    ensures forall j :: off <= j < off + Size(k) ==> grad[j] == old(GradientSpec(k, x1, x2))[j - off]
    ensures OutsideUnchanged(grad, old(grad[..]), off, off + Size(k))
    decreases k, 2
  {
    match k
    case Base =>
    case Sum(_, _) => SumGradient(k, x1, x2, grad, off);
    case Product(_, _) => ProductGradient(k, x1, x2, grad, off);
    case Stationary(_, _, _) => StationaryGradient(k, x1, x2, grad, off);
    case NonStationary(_, _, _) => NonStationaryGradient(k, x1, x2, grad, off);
  }

  /** A sum's gradient is its children's gradients side by side. */
  method SumGradient(k: Kernel, x1: seq<real>, x2: seq<real>, grad: array<real>, off: nat)
    requires k.Sum? && Valid(k) && Fits(k, x1, x2)
    requires off + Size(k) <= grad.Length && grad !in Repr(k)
    modifies grad
    ensures forall j :: off <= j < off + Size(k) ==> grad[j] == old(GradientSpec(k, x1, x2))[j - off]
    ensures OutsideUnchanged(grad, old(grad[..]), off, off + Size(k))
    decreases k, 1
  {
    ChildGradients(k, x1, x2, grad, off);
  }

  /**
   * What both operators do first: the first child's gradient at grad[off ..]
   * and the second child's right after it, at grad[off + Size(k1) ..].
   */
  method ChildGradients(k: Kernel, x1: seq<real>, x2: seq<real>, grad: array<real>, off: nat)
    requires k.IsOperator() && Valid(k) && Fits(k, x1, x2)
    requires off + Size(k) <= grad.Length && grad !in Repr(k)
    modifies grad
    ensures forall j :: off <= j < off + Size(k) ==>
      grad[j] == old(GradientSpec(k.k1, x1, x2) + GradientSpec(k.k2, x1, x2))[j - off]
    ensures OutsideUnchanged(grad, old(grad[..]), off, off + Size(k))
    decreases k, 0
  {
    ReprAllocated(k);
    assert Valid(k.k1) && Valid(k.k2) && Fits(k.k1, x1, x2) && Fits(k.k2, x1, x2);
    ghost var g1, g2 := GradientSpec(k.k1, x1, x2), GradientSpec(k.k2, x1, x2);
    var n := Size(k.k1);
    Gradient(k.k1, x1, x2, grad, off);
    assert GradientSpec(k.k2, x1, x2) == g2;
    ghost var mid := grad[..];
    Gradient(k.k2, x1, x2, grad, off + n);
    forall j | off <= j < off + Size(k)
      ensures grad[j] == (g1 + g2)[j - off]
    {
      if j < off + n {
        assert grad[j] == mid[j] == g1[j - off];
      }
    }
  }

  /**
   * Product rule: both children's gradients are written first, then the first
   * child's slots are scaled by the second child's value and the second
   * child's slots by the first child's value.
   */
  method ProductGradient(k: Kernel, x1: seq<real>, x2: seq<real>, grad: array<real>, off: nat)
    requires k.Product? && Valid(k) && Fits(k, x1, x2)
    requires off + Size(k) <= grad.Length && grad !in Repr(k)
    modifies grad
    ensures forall j :: off <= j < off + Size(k) ==> grad[j] == old(GradientSpec(k, x1, x2))[j - off]
    ensures OutsideUnchanged(grad, old(grad[..]), off, off + Size(k))
    decreases k, 1
  {
    ReprAllocated(k);
    ghost var g1, g2 := GradientSpec(k.k1, x1, x2), GradientSpec(k.k2, x1, x2);
    ghost var c1, c2 := Value(k.k1, x1, x2), Value(k.k2, x1, x2);
    assert GradientSpec(k, x1, x2) == Scale(g1, c2) + Scale(g2, c1);
    var n1 := Size(k.k1);
    ChildGradients(k, x1, x2, grad, off);
    assert Value(k.k1, x1, x2) == c1 && Value(k.k2, x1, x2) == c2;
    var v1 := Evaluate(k.k1, x1, x2);
    var v2 := Evaluate(k.k2, x1, x2);
    ScaleBlocks(grad, off, off + n1, off + Size(k), g1, g2, v2, v1);
  }

  /**
   * The in-place arithmetic of the product rule: a block of grad holding g1
   * then g2 has its first part scaled by c1 and its second part by c2, so it
   * ends up holding Scale(g1, c1) + Scale(g2, c2); nothing else changes.
   */
  method ScaleBlocks(grad: array<real>, off: nat, mid: nat, hi: nat, ghost g1: seq<real>, ghost g2: seq<real>, c1: real, c2: real)
    requires mid == off + |g1| && hi == mid + |g2| <= grad.Length
    requires forall j :: off <= j < hi ==> grad[j] == (g1 + g2)[j - off]
    modifies grad
    ensures forall j :: off <= j < hi ==> grad[j] == (Scale(g1, c1) + Scale(g2, c2))[j - off]
    ensures OutsideUnchanged(grad, old(grad[..]), off, hi)
  {
    ghost var s0 := grad[..];
    ScaleRange(grad, off, mid, c1);
    ghost var s1 := grad[..];
    ScaleRange(grad, mid, hi, c2);
    forall j | off <= j < hi
      ensures grad[j] == (Scale(g1, c1) + Scale(g2, c2))[j - off]
    {
      var p := j - off;
      if p < |g1| {
        assert grad[j] == s1[j] == s0[j] * c1 == (g1 + g2)[p] * c1 == g1[p] * c1;
      } else {
        assert grad[j] == s1[j] * c2 == s0[j] * c2 == (g1 + g2)[p] * c2 == g2[p - |g1|] * c2;
      }
    }
  }

  /**
   * Each own parameter's derivative at the current squared distance, then the
   * metric's derivatives written by the metric and rescaled in place by the
   * radial derivative (chain rule).
   */
  method StationaryGradient(k: Kernel, x1: seq<real>, x2: seq<real>, grad: array<real>, off: nat)
    requires k.Stationary? && Valid(k)
    requires off + Size(k) <= grad.Length && grad !in Repr(k)
    modifies grad
    ensures forall j :: off <= j < off + Size(k) ==> grad[j] == old(GradientSpec(k, x1, x2))[j - off]
    ensures OutsideUnchanged(grad, old(grad[..]), off, off + Size(k))
  {
    var size, n := k.own.Length, Size(k);
    var ps := k.own[..];
    var r2 := k.metric.Value(x1, x2);
    var r2grad := k.shape.radial(ps, r2);
    ghost var own := OwnRadialDerivatives(k.shape, ps, r2);
    for p := 0 to size
      invariant forall j :: off <= j < off + p ==> grad[j] == own[j - off]
      invariant OutsideUnchanged(grad, old(grad[..]), off, off + p)
    {
      grad[off + p] := k.shape.grads[p](ps, r2);
    }
    k.metric.Gradient(x1, x2, grad, off + size);
    ScaleRange(grad, off + size, off + n, r2grad);
  }

  /** Multiplies every entry of grad[lo .. hi) by c in place; nothing else changes. */
  method ScaleRange(grad: array<real>, lo: nat, hi: nat, c: real)
    requires lo <= hi <= grad.Length
    modifies grad
    ensures forall j :: lo <= j < hi ==> grad[j] == old(grad[j]) * c
    ensures OutsideUnchanged(grad, old(grad[..]), lo, hi)
  {
    for i := lo to hi
      invariant forall j :: lo <= j < i ==> grad[j] == old(grad[j]) * c
      invariant forall j :: i <= j < hi ==> grad[j] == old(grad[j])
      invariant OutsideUnchanged(grad, old(grad[..]), lo, hi)
    {
      grad[i] := grad[i] * c;
    }
  }

  /** Adds each parameter's derivative at one axis to its slot grad[off + p]; nothing else changes. */
  method AddAxisTerms(grad: array<real>, off: nat, grads: seq<AxisFormula>, ps: seq<real>, xa: real, xb: real)
    requires off + |grads| <= grad.Length
    modifies grad
    ensures forall j :: off <= j < off + |grads| ==> grad[j] == old(grad[j]) + grads[j - off](ps, xa, xb)
    ensures OutsideUnchanged(grad, old(grad[..]), off, off + |grads|)
  {
    for p := 0 to |grads|
      invariant forall j :: off <= j < off + p ==> grad[j] == old(grad[j]) + grads[j - off](ps, xa, xb)
      invariant OutsideUnchanged(grad, old(grad[..]), off, off + p)
    {
      grad[off + p] := grad[off + p] + grads[p](ps, xa, xb);
    }
  }

  /**
   * Each own slot starts at 0.0 and accumulates, axis by axis in the
   * subspace's order, that parameter's per-axis derivative.
   */
  method NonStationaryGradient(k: Kernel, x1: seq<real>, x2: seq<real>, grad: array<real>, off: nat)
    requires k.NonStationary? && Valid(k) && Fits(k, x1, x2)
    requires off + Size(k) <= grad.Length && grad !in Repr(k)
    modifies grad
    ensures forall j :: off <= j < off + Size(k) ==> grad[j] == old(GradientSpec(k, x1, x2))[j - off]
    ensures OutsideUnchanged(grad, old(grad[..]), off, off + Size(k))
  {
    var size := k.own.Length;
    var ps, axes := k.own[..], k.subspace.axes;
    for p := 0 to size
      invariant forall j :: off <= j < off + p ==> grad[j] == 0.0
      invariant OutsideUnchanged(grad, old(grad[..]), off, off + p)
    {
      grad[off + p] := 0.0;
    }
    assert AxesFit(axes[..0], x1, x2);
    if size > 0 {
      var n := k.subspace.NAxes();
      for i := 0 to n
        invariant AxesFit(axes[..i], x1, x2)
        invariant forall j :: off <= j < off + size ==> grad[j] == AxisSum(k.profile.grads[j - off], ps, axes[..i], x1, x2)
        invariant OutsideUnchanged(grad, old(grad[..]), off, off + size)
      {
        var a := k.subspace.Axis(i);
        assert axes[..i + 1][..i] == axes[..i];
        AddAxisTerms(grad, off, k.profile.grads, ps, x1[a], x2[a]);
      }
      assert axes[..n] == axes;
    }
  }
}
