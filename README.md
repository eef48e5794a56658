# george covariance kernels in Dafny

This project models the kernel tree in `templates/kernels.h` of the george
Gaussian-process library. Three kinds of kernel make up the tree:

- The base `Kernel` has no parameters. Its covariance is 0.0 and its gradient writes nothing.
- The operators `Sum` and `Product` each own two child kernels.
- Two leaf families are generated from a template. A stationary leaf applies
  a radial formula to the squared distance computed by a `Metric`. A
  non-stationary leaf sums a per-axis formula over the axes a `Subspace`
  selects.

Every node exposes a flattened parameter vector:

- An operator's vector is its first child's vector followed by its second child's.
- A stationary leaf's vector is its own hyperparameters followed by its metric's parameters.
- A non-stationary leaf's vector is its own hyperparameters only.

Each node provides `size`, `get_parameter`, `set_parameter`, `value` and
`gradient`. `gradient` writes the derivative with respect to each parameter
into a caller-supplied buffer, at the same index as `get_parameter`.

How the model is built:

- The tree shape never changes after it is built, so the tree is a `datatype` (`Kernels.Kernel`).
- What `set_parameter` changes in place is a leaf's own parameter fields and its metric's parameters. These are `array<real>` storage held by the leaves.
- The template-generated formulas are function values carried by each leaf:
  - the value;
  - one derivative per own parameter;
  - for stationary kernels, the radial derivative.
- The metric is modelled through the interface the kernels call (`Collaborators.Metric`). It has parameter storage, a squared-distance formula and one derivative formula per parameter.
- The subspace is modelled as its sequence of selected axes (`Collaborators.Subspace`).

The specification functions:

- `Kernels.Params` is the flattened vector.
- `Kernels.Value` is the covariance.
- `Kernels.GradientSpec` is the gradient vector.
- `Kernels.AxisSum` is the in-order sum over a subspace's axes.

The operations mirror the C++ methods class by class:

- `get_parameter` is a function.
- `set_parameter` is a method that modifies the tree's storage.
- `value` is a method that reads it.
- `gradient` is a method that writes a caller array at an offset. The offset plays the role of the pointer `&grad[n]` that the C++ passes down.

Each operation is proved against the specification functions, and `properties.dfy` proves facts about those functions.

Two preconditions state what the C++ leaves to its callers:

- `Kernels.Valid` says that no two nodes share storage. The C++ assumes this but does not check it: each destructor deletes what its node points to (templates/kernels.h:41-44, 115, 213). It also says that every leaf has one derivative formula per parameter.
- `Kernels.Fits` says that every axis a non-stationary leaf selects indexes into both points.

Out-of-range parameter indices are well defined in the model: `get_parameter` returns 0.0 and `set_parameter` changes nothing. For the base kernel (templates/kernels.h:29-30) and the non-stationary leaf (templates/kernels.h:221 and 226) this is what the C++ does. An operator passes such an index on to its second child (templates/kernels.h:54 and 59), so it ends in a leaf or the base kernel. A stationary leaf passes it to its metric at `i - size_` (templates/kernels.h:123 and 129). What the metric then does is an assumption of this model, recorded under "## Left out" (the line on metrics.h). The one size precondition kept is that the gradient buffer holds `Size(k)` entries from the offset on.

## Model

| member | source | states |
|---|---|---|
| `Kernels.Params` | templates/kernels.h:49 | The flattened vector has exactly `Size(k)` entries, the C++ `size()`: the children's sizes added for an operator, the own count plus the metric's size for a stationary leaf, the own count for a non-stationary leaf. |
| `Kernels.GradientSpec` | templates/kernels.h:24 | The gradient vector has exactly `Size(k)` entries, indexed like `Params`. |
| `KernelProperties.SizeLayout` | templates/kernels.h:49 | `size()` is the length of the parameter vector and of the gradient. It is additive over an operator's children (line 49), the own count plus the metric's size for a stationary leaf (line 187), the own count for a non-stationary leaf (line 281) and 0 for the base kernel (line 27). |
| `Kernels.GetParameter` | templates/kernels.h:30 | For `i < Size(k)`, returns entry `i` of the flattened vector. For any larger `i`, returns 0.0. The base kernel always returns 0.0. |
| `Kernels.OperatorGetParameter` | templates/kernels.h:56-60 | An index below the first child's size reads the first child. Any other index reads the second child at `i - n1`. The result is entry `i` of the concatenated vector, or 0.0 past its end. |
| `Kernels.StationaryGetParameter` | templates/kernels.h:119-124 | Own parameters come first. A larger index reads the metric at `i - size_`. The result is entry `i` of own parameters followed by metric parameters, or 0.0 past the end. |
| `Kernels.NonStationaryGetParameter` | templates/kernels.h:217-222 | Reads own parameter `i`, or returns 0.0 when `i` is out of range. |
| `Kernels.SetParameter` | templates/kernels.h:29 | For `i < Size(k)`, exactly entry `i` of the flattened vector becomes `v`. Reading `i` back gives `v`, and every other index reads what it read before. An index past the end changes nothing, as the base kernel's no-op does. |
| `Kernels.OperatorSetParameter` | templates/kernels.h:51-55 | Writing routes `i < n1` to the first child and any other index to the second child at `i - n1`. The new vector is the old one with entry `i` replaced, or unchanged when `i` is out of range. |
| `Kernels.StationarySetParameter` | templates/kernels.h:125-130 | An own index updates that own parameter. A larger index is handed to the metric at `i - size_`. The new vector is the old one with entry `i` replaced, or unchanged when out of range. |
| `Kernels.NonStationarySetParameter` | templates/kernels.h:223-227 | Updates own parameter `i`. An out-of-range index changes nothing. |
| `Kernels.Evaluate` | templates/kernels.h:23 | Returns the tree's covariance `Value(k, x1, x2)`. The base kernel's is 0.0. |
| `Kernels.SumEvaluate` | templates/kernels.h:69-71 | Returns the first child's covariance plus the second child's. |
| `Kernels.ProductEvaluate` | templates/kernels.h:82-84 | Returns the first child's covariance times the second child's. |
| `Kernels.StationaryEvaluate` | templates/kernels.h:140-147 | Returns the value formula applied to the current own parameters and the metric's squared distance. |
| `Kernels.NonStationaryEvaluate` | templates/kernels.h:237-249 | Accumulates from 0.0, in the subspace's axis order, the per-axis formula at each selected coordinate. The loop invariant ties each prefix of axes to `AxisSum`. |
| `Kernels.Gradient` | templates/kernels.h:24 | Writes `GradientSpec(k)` into `grad[off .. off + Size(k))`. Every entry outside that range is unchanged, so nothing at or past `Size(k)` is written. |
| `Kernels.SumGradient` | templates/kernels.h:72-76 | The written block is the first child's gradient followed by the second child's. No other entry changes. |
| `Kernels.ChildGradients` | templates/kernels.h:72-75 | Writes the first child's gradient at `off` and the second child's at `off + n1`. The second write leaves the first block intact, and no entry outside the block changes. |
| `Kernels.ProductGradient` | templates/kernels.h:85-93 | Writes both children's gradients. It then rescales the first block by the second child's value and the second block by the first child's value (product rule). Entries outside the block are unchanged. |
| `Kernels.ScaleBlocks` | templates/kernels.h:91-92 | Rescales a block holding `g1` then `g2` in place, so that it holds `g1` scaled by `c1` followed by `g2` scaled by `c2`. Nothing else changes. |
| `Kernels.StationaryGradient` | templates/kernels.h:167-185 | Own slots hold each own parameter's derivative at the current squared distance. The metric then writes its slots, which are rescaled in place by the radial derivative (chain rule). Nothing outside the block changes. |
| `Kernels.ScaleRange` | templates/kernels.h:184 | Multiplies every entry of `grad[lo .. hi)` by `c`. No other entry changes. |
| `Kernels.AddAxisTerms` | templates/kernels.h:270-275 | For one axis, adds each parameter's per-axis derivative to its slot. No other entry changes. |
| `Kernels.NonStationaryGradient` | templates/kernels.h:261-279 | Zeroes each own slot, then accumulates the per-axis derivatives over the selected axes in order. Each slot ends as that parameter's `AxisSum`, and nothing outside the block changes. |
| `Collaborators.Metric.GetParameter` | templates/kernels.h:123 | The metric's parameter `i`, or 0.0 out of range. |
| `Collaborators.Metric.SetParameter` | templates/kernels.h:129 | Replaces the metric's parameter `i`, or changes nothing out of range. |
| `Collaborators.Metric.Value` | templates/kernels.h:141 | The squared distance `metric_->value(x1, x2)`: the metric's formula at its current parameter storage and the two points. The same value feeds `value` (line 141) and `gradient` (line 169). |
| `Collaborators.Subspace.NAxes` | templates/kernels.h:238 | `get_naxes()` is the number of selected axes. Every index below it is a valid `get_axis` index, and `get_axis` enumerates the axes in order. |
| `Collaborators.Subspace.Axis` | templates/kernels.h:241 | `get_axis(i)` is the coordinate index of the i-th selected axis, one of the subspace's axes. |
| `Collaborators.Metric.Derivatives` | templates/kernels.h:183 | The metric's derivatives of the squared distance, one per metric parameter. |
| `Collaborators.Metric.Gradient` | templates/kernels.h:183 | Writes the metric's derivatives at `grad[off ..]` and nothing else. |
| `KernelProperties.BaseKernel` | templates/kernels.h:23-30 | The base kernel has size 0 and an empty parameter vector. Its covariance is 0.0, its gradient is empty, and every read returns 0.0. |
| `KernelProperties.Locate` | templates/kernels.h:51-60 | Every index below `Size(k)` belongs to a stationary or non-stationary leaf of `k`, at an index within that leaf's size. That leaf's storage is part of `k`'s. |
| `KernelProperties.SlotCorrespondence` | templates/kernels.h:56-60 | Reading entry `i` through the operators' routing gives the same value as reading entry `j` of the leaf `Locate` finds, at any depth. Proved by induction over the tree. |
| `KernelProperties.OperatorOrder` | templates/kernels.h:66-94 | Swapping an operator's children leaves the covariance unchanged, for `Sum` and for `Product`. The flattened parameter vector follows construction order: `Sum(a, b)` lists `a`'s parameters then `b`'s, and `Sum(b, a)` the reverse. Index `i` below the first child's size reads the first child's parameter `i`, whichever child that is. |
| `KernelProperties.SumGradientSlices` | templates/kernels.h:72-76 | A sum's gradient entry `p < n1` is the first child's entry `p`. Every later entry is the second child's entry `p - n1`. |
| `KernelProperties.ProductRule` | templates/kernels.h:85-93 | A product's gradient entry `p < n1` is the first child's derivative times the second child's value. Every later entry is the second child's derivative at `p - n1` times the first child's value. |
| `KernelProperties.StationaryChainRule` | templates/kernels.h:167-185 | An own entry is that parameter's derivative at the current squared distance. A metric entry `p` is the metric's derivative `p - size_` times the radial derivative. |
| `KernelProperties.NonStationaryGradientSlots` | templates/kernels.h:261-279 | Entry `p` is parameter `p`'s per-axis derivative summed over the selected axes. |
| `KernelProperties.AxisSumConcat` | templates/kernels.h:240-248 | The sum over two runs of axes, one after the other, is the sum over the first run plus the sum over the second. Proved by induction. |
| `KernelProperties.AxisSumFirst` | templates/kernels.h:240-248 | The in-order sum over a non-empty run is the first axis's term plus the sum over the rest. |
| `KernelProperties.EmptySubspace` | templates/kernels.h:237-279 | With no selected axes, a non-stationary leaf's covariance is exactly 0.0 and every gradient entry is 0.0. |

## Left out

- The concrete kernel formulas are generated by the Jinja template from kernel descriptions that are not part of this model. They are arbitrary function values here, and the template machinery itself is not modelled.
- Floating point is modelled as `real`. IEEE rounding, NaN and infinity propagation are not modelled.
- Agreement of the analytic gradients with finite differences is not modelled. It is calculus over floats.
- The `Metric` and `Subspace` implementations (metrics.h and subspace.h) are not part of this model. Their out-of-range behaviour is assumed: a metric `get_parameter` past its size returns 0.0, and `set_parameter` past its size does nothing, as the base kernel does.
- `Kernels.Ndim` models `get_ndim` (first child's for an operator, the metric's or subspace's for a leaf) without a contract. Nothing in the kernels reads it.
- Sizes and indices are `unsigned` in C++. The model uses unbounded naturals, so 32-bit wrap-around of `size()` or of `i - n` is not modelled. The code only computes `i - n` when `i >= n`.
- Destructors, raw-pointer ownership and the `get_kernel1`/`get_kernel2` accessors are not modelled. Ownership becomes the disjointness in `Kernels.Valid`, and the children are the datatype's `k1` and `k2`.
- `Kernels.Valid` excludes trees in which a node is shared, such as `Sum(k, k)`. The C++ accepts such a tree, and in it two parameter slots alias the same field, so `set_parameter(n1 + j, v)` also changes slot `j`. The model does not describe those trees, and the set/get round trip of `Kernels.SetParameter` is not promised for them.
- Concurrent use of one tree is not modelled.
- Reading a coordinate past the end of a point is undefined in C++. The model requires `Kernels.Fits` instead.
- A tree-wide statement of the gradient of a slot as its leaf's gradient times the product of sibling values is not proved. The per-node rules (`KernelProperties.ProductRule`, `KernelProperties.SumGradientSlices`) and the gradient methods' contracts state it one level at a time.
