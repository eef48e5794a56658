/**
 * Properties of the kernel tree's specification: the base kernel, which
 * leaf owns each entry of the flattened parameter vector, the rule each kind
 * of node follows for its gradient, and sums over the axes of a subspace.
 */
module KernelProperties {
  import opened Collaborators
  import opened Kernels

  // ---------------------------------------------------------------------------
  // Base kernel
  // ---------------------------------------------------------------------------

  /** The base kernel has no parameters, covariance 0.0, an empty gradient, and reads 0.0 everywhere. */
  lemma BaseKernel(x1: seq<real>, x2: seq<real>, i: nat)
    ensures Size(Base) == 0 && Params(Base) == []
    ensures Value(Base, x1, x2) == 0.0
    ensures GradientSpec(Base, x1, x2) == []
    ensures GetParameter(Base, i) == 0.0
  {
  }

  // ---------------------------------------------------------------------------
  // Slots of the flattened parameter vector
  // ---------------------------------------------------------------------------

  /**
   * The size of a node is the length of its parameter vector and of its
   * gradient: additive over an operator's children, the own count plus the
   * metric's size for a stationary leaf, the own count for a non-stationary one.
   */
  lemma SizeLayout(k: Kernel, x1: seq<real>, x2: seq<real>)
    requires Valid(k) && Fits(k, x1, x2)
    ensures Size(k) == |Params(k)| == |GradientSpec(k, x1, x2)|
    ensures k.IsOperator() ==> Size(k) == Size(k.k1) + Size(k.k2)
    ensures k.Stationary? ==> Size(k) == k.own.Length + k.metric.Size()
    ensures k.NonStationary? ==> Size(k) == k.own.Length
    ensures k.Base? ==> Size(k) == 0
  {
  }

  /**
   * The leaf that owns entry i of a tree's parameter vector, and the index of
   * that entry in the leaf's own vector: an operator sends i below its first
   * child's size to that child and any other i to its second child at i - n1.
   */
  ghost function Locate(k: Kernel, i: nat): (r: (Kernel, nat))
    requires i < Size(k)
    ensures r.0.Stationary? || r.0.NonStationary?
    ensures r.1 < Size(r.0)
    ensures Repr(r.0) <= Repr(k)
    ensures Valid(k) ==> Valid(r.0)
  {
    match k
    case Sum(k1, k2) => if i < Size(k1) then Locate(k1, i) else Locate(k2, i - Size(k1))
    case Product(k1, k2) => if i < Size(k1) then Locate(k1, i) else Locate(k2, i - Size(k1))
    case _ => (k, i)
  }

  /**
   * Entry i of the tree is entry j of exactly one leaf: reading it through
   * the operators' routing reads that leaf's entry, whichever path it takes.
   */
  lemma {:induction false} SlotCorrespondence(k: Kernel, i: nat)
    requires i < Size(k)
    ensures GetParameter(k, i) == GetParameter(Locate(k, i).0, Locate(k, i).1)
  {
    if k.IsOperator() {
      var n1 := Size(k.k1);
      var child, ci := if i < n1 then k.k1 else k.k2, if i < n1 then i else i - n1;
      assert GetParameter(k, i) == GetParameter(child, ci);
      assert Locate(k, i) == Locate(child, ci);
      SlotCorrespondence(child, ci);
    }
  }

  /**
   * Tree order: swapping an operator's children does not change the
   * covariance, but the flattened parameter vector follows construction order.
   */
  lemma OperatorOrder(a: Kernel, b: Kernel, x1: seq<real>, x2: seq<real>, i: nat)
    requires Fits(a, x1, x2) && Fits(b, x1, x2)
    ensures Value(Sum(a, b), x1, x2) == Value(Sum(b, a), x1, x2)
    ensures Value(Product(a, b), x1, x2) == Value(Product(b, a), x1, x2)
    ensures Params(Sum(a, b)) == Params(a) + Params(b) && Params(Sum(b, a)) == Params(b) + Params(a)
    ensures i < Size(a) ==> GetParameter(Sum(a, b), i) == GetParameter(a, i)
    ensures i < Size(b) ==> GetParameter(Sum(b, a), i) == GetParameter(b, i)
  {
  }

  // ---------------------------------------------------------------------------
  // Per-node gradient rules
  // ---------------------------------------------------------------------------

  /** A sum's gradient holds the first child's gradient, then the second child's. */
  lemma SumGradientSlices(k: Kernel, x1: seq<real>, x2: seq<real>, p: nat)
    requires k.Sum? && Valid(k) && Fits(k, x1, x2) && p < Size(k)
    ensures p < Size(k.k1) ==> GradientSpec(k, x1, x2)[p] == GradientSpec(k.k1, x1, x2)[p]
    ensures Size(k.k1) <= p ==> GradientSpec(k, x1, x2)[p] == GradientSpec(k.k2, x1, x2)[p - Size(k.k1)]
  {
    var g1, g2 := GradientSpec(k.k1, x1, x2), GradientSpec(k.k2, x1, x2);
    assert GradientSpec(k, x1, x2) == g1 + g2;
  }

  /**
   * Product rule: entry p below the first child's size is the first child's
   * derivative times the second child's value; every later entry is the
   * second child's derivative times the first child's value.
   */
  lemma ProductRule(k: Kernel, x1: seq<real>, x2: seq<real>, p: nat)
    requires k.Product? && Valid(k) && Fits(k, x1, x2) && p < Size(k)
    ensures p < Size(k.k1) ==>
      GradientSpec(k, x1, x2)[p] == GradientSpec(k.k1, x1, x2)[p] * Value(k.k2, x1, x2)
    ensures Size(k.k1) <= p ==>
      GradientSpec(k, x1, x2)[p] == GradientSpec(k.k2, x1, x2)[p - Size(k.k1)] * Value(k.k1, x1, x2)
  {
    var g1, g2 := GradientSpec(k.k1, x1, x2), GradientSpec(k.k2, x1, x2);
    var v1, v2 := Value(k.k1, x1, x2), Value(k.k2, x1, x2);
    assert GradientSpec(k, x1, x2) == Scale(g1, v2) + Scale(g2, v1);
  }

  /**
   * Chain rule of a stationary leaf: an own entry is that parameter's
   * derivative at the current squared distance; a metric entry is the
   * metric's derivative of the squared distance times the radial derivative.
   */
  lemma StationaryChainRule(k: Kernel, x1: seq<real>, x2: seq<real>, p: nat)
    requires k.Stationary? && Valid(k) && p < Size(k)
    ensures p < k.own.Length ==>
      GradientSpec(k, x1, x2)[p] == k.shape.grads[p](k.own[..], k.metric.Value(x1, x2))
    ensures k.own.Length <= p ==>
      GradientSpec(k, x1, x2)[p] ==
        k.metric.dr2[p - k.own.Length](k.metric.params[..], x1, x2) * k.shape.radial(k.own[..], k.metric.Value(x1, x2))
  {
  }

  /** A non-stationary leaf's entry p is parameter p's per-axis derivative summed over the selected axes. */
  lemma NonStationaryGradientSlots(k: Kernel, x1: seq<real>, x2: seq<real>, p: nat)
    requires k.NonStationary? && Valid(k) && Fits(k, x1, x2) && p < Size(k)
    ensures GradientSpec(k, x1, x2)[p] == AxisSum(k.profile.grads[p], k.own[..], k.subspace.axes, x1, x2)
  {
  }

  // ---------------------------------------------------------------------------
  // Sums over the axes of a subspace
  // ---------------------------------------------------------------------------

  /** Summing over two runs of axes one after the other adds the two runs' sums. */
  lemma {:induction false} AxisSumConcat(f: AxisFormula, ps: seq<real>, a: seq<nat>, b: seq<nat>, x1: seq<real>, x2: seq<real>)
    requires AxesFit(a + b, x1, x2)
    ensures AxesFit(a, x1, x2) && AxesFit(b, x1, x2)
    ensures AxisSum(f, ps, a + b, x1, x2) == AxisSum(f, ps, a, x1, x2) + AxisSum(f, ps, b, x1, x2)
    decreases |b|
  {
    assert forall i :: 0 <= i < |a| ==> a[i] == (a + b)[i];
    assert forall i :: 0 <= i < |b| ==> b[i] == (a + b)[|a| + i];
    if |b| == 0 {
      assert a + b == a;
    } else {
      var front := b[..|b| - 1];
      assert (a + b)[..|a + b| - 1] == a + front;
      assert forall i :: 0 <= i < |front| ==> front[i] == b[i];
      AxisSumConcat(f, ps, a, front, x1, x2);
    }
  }

  /** The sum over a non-empty run is its first axis's term plus the sum over the rest. */
  lemma {:induction false} AxisSumFirst(f: AxisFormula, ps: seq<real>, axes: seq<nat>, x1: seq<real>, x2: seq<real>)
    requires |axes| > 0 && AxesFit(axes, x1, x2)
    ensures AxesFit(axes[1..], x1, x2)
    ensures AxisSum(f, ps, axes, x1, x2) == f(ps, x1[axes[0]], x2[axes[0]]) + AxisSum(f, ps, axes[1..], x1, x2)
  {
    assert axes == [axes[0]] + axes[1..];
    AxisSumConcat(f, ps, [axes[0]], axes[1..], x1, x2);
    assert [axes[0]][..0] == [];
  }

  /** With no selected axes a non-stationary leaf's covariance and every gradient entry are exactly 0.0. */
  lemma EmptySubspace(k: Kernel, x1: seq<real>, x2: seq<real>)
    requires k.NonStationary? && Valid(k) && k.subspace.NAxes() == 0
    ensures Fits(k, x1, x2)
    ensures Value(k, x1, x2) == 0.0
    ensures forall p :: 0 <= p < Size(k) ==> GradientSpec(k, x1, x2)[p] == 0.0
  {
  }
}
