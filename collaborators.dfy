/**
 * The two collaborators a leaf kernel owns: the distance Metric of a
 * stationary kernel and the axis Subspace of a non-stationary kernel.
 * Their implementations are not part of this model; only the interface the
 * kernels call is modelled, with the metric's formulas left as arbitrary
 * function values.
 */
module Collaborators {

  /** A metric formula: the metric's own parameter vector and two points to a real. */
  type MetricFormula = (seq<real>, seq<real>, seq<real>) -> real

  /**
   * A distance metric. `params` is the metric's own parameter storage (updated
   * in place by SetParameter), `r2` the squared distance it computes, `dr2[q]`
   * the derivative of that squared distance with respect to parameter q, and
   * `ndim` the input dimensionality it expects.
   */
  datatype Metric = Metric(params: array<real>, r2: MetricFormula, dr2: seq<MetricFormula>, ndim: nat)
  {
    /** One derivative formula per parameter slot. */
    predicate Valid() {
      |dr2| == params.Length
    }

    function Size(): nat {
      params.Length
    }

    /** Squared distance between two points under the current parameters. */
    function Value(x1: seq<real>, x2: seq<real>): (r: real)
      reads params
      ensures r == r2(params[..], x1, x2)
    {
      r2(params[..], x1, x2)
    }

    /** Out-of-range reads give 0.0, as the kernels' own base class does. */
    function GetParameter(i: nat): (r: real)
      reads params
      ensures i < Size() ==> r == params[..][i]
      ensures Size() <= i ==> r == 0.0
    {
      if i < params.Length then params[i] else 0.0
    }

    /** Out-of-range writes change nothing. */
    method SetParameter(i: nat, v: real)
      modifies params
      ensures params[..] == if i < Size() then old(params[..])[i := v] else old(params[..])
    {
      if i < params.Length {
        params[i] := v;
      }
    }

    /** The derivative of the squared distance with respect to each parameter, in slot order. */
    ghost function Derivatives(x1: seq<real>, x2: seq<real>): (d: seq<real>)
      reads params
      requires Valid()
      ensures |d| == Size()
    {
      var ps := params[..];
      seq(|dr2|, q requires 0 <= q < |dr2| => dr2[q](ps, x1, x2))
    }

    /** Writes d(r2)/d(parameter q) at grad[off + q] for every parameter q, and nothing else. */
    method Gradient(x1: seq<real>, x2: seq<real>, grad: array<real>, off: nat)
      requires Valid() && off + Size() <= grad.Length && grad != params
      modifies grad
      ensures forall j :: off <= j < off + Size() ==> grad[j] == Derivatives(x1, x2)[j - off]
      ensures forall j :: 0 <= j < grad.Length && !(off <= j < off + Size()) ==> grad[j] == old(grad[j])
    {
      for q := 0 to params.Length
        invariant forall j :: off <= j < off + q ==> grad[j] == Derivatives(x1, x2)[j - off]
        invariant forall j :: 0 <= j < grad.Length && !(off <= j < off + q) ==> grad[j] == old(grad[j])
      {
        grad[off + q] := dr2[q](params[..], x1, x2);
      }
    }
  }

  /**
   * An axis subset: `axes[i]` is the coordinate index of the i-th selected
   * axis, and `ndim` the input dimensionality it expects.
   */
  datatype Subspace = Subspace(axes: seq<nat>, ndim: nat)
  {
    /** The number of selected axes; exactly the indices below it are valid for Axis, in order. */
    function NAxes(): (n: nat)
      ensures n == |axes|
      ensures forall i :: 0 <= i < n ==> Axis(i) == axes[i]
    {
      |axes|
    }

    /** The coordinate index of the i-th selected axis. */
    function Axis(i: nat): (a: nat)
      requires i < |axes|
      ensures a == axes[i] && a in axes
    {
      axes[i]
    }
  }
}
