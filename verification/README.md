# B-spline central camera model in Dafny

This project models `CentralModel` from `central_model.py`. It is a
generalized camera model: every image pixel gets a viewing direction. The
direction is the value of a tensor-product B-spline surface whose control
points are 3-vectors on an n x m grid. The arithmetic is over exact `real`s.

- `vectors.dfy`, module `Vectors`: 3-vectors with addition and scaling.
- `basis.dfy`, module `Basis`: the basis functions of `__B__`. This is the
  Cox-de Boor recursion (Equations 2 and 3) with the source's zero-denominator
  rule: when a span has width zero, its numerator and denominator both become
  1. The module also has the textbook recursion that drops such a term, kept
  as an independent reference. Its lemmas cover:
  - the base case;
  - local support and non-negativity;
  - how the two recursions relate.
- `partition.dfy`, module `Partition`: sums of consecutive basis functions.
  It proves partition of unity inside the valid parameter range, and that
  every such sum is at most 1 everywhere.
- `sums.dfy`, module `WeightedSums`:
  - the `np.where` selection of significant indices;
  - the weighted grid a[i][j] * Bh[i] * Bv[j];
  - sums over listed index pairs, and the same sums written as masked and
    as unfiltered folds;
  - the lemmas that connect these sums.
- `central_model.dfy`, module `Camera`:
  - the constructor's checks, as a `Result`;
  - the pixel-to-parameter mapping;
  - `sample`, as the imperative `Sample` with its two nested accumulation
    loops (`Accumulate`, `AccumulateRow`), proved equal to the specification
    function `TruncatedSample`;
  - `sample_grid`, as `SampleGrid`, which fills a fresh `array2` at the
    floor-spaced pixel positions;
  - end-to-end properties of the sampled surface.

The knot vectors follow the source's pairing. `th` is the knot vector built
for n control points and `tv` the one built for m. `sample` nevertheless
evaluates the n horizontal basis values Bh over `tv` and the m vertical basis
values Bv over `th`. The model keeps this pairing exactly.

## Model

| member | source | states |
|---|---|---|
| Camera.Create | central_model.py:13-50 | An unknown knot method, a control array that is not a rectangular grid, or an order not below both grid counts is refused with the matching error, checked in the source's order. Input with a known method, a rectangular grid and an order below both counts always succeeds. On success the model holds the given control points, dimensions, order and threshold, with n and m as the grid's counts. `th` is built for n and `tv` for m by the chosen generator, and the result satisfies `Valid`. |
| Basis.BaseCase | central_model.py:61-66 | Order 0 is 1 exactly when t[i] <= x < t[i+1] and 0 exactly when x is outside that right-open span, so x == t[i+1] gives 0. |
| Basis.RuleDiffersFromDroppingTerm | central_model.py:73-84 | The zero-denominator rule is not the textbook "drop the term" convention. On the unsorted knots [0, 1, 0, 2] at x = 0.5, B(0, 2) is 13/8 while the textbook recursion gives 9/8. |
| Basis.SubstitutedTermVanishes | central_model.py:69-84 | On non-decreasing knots, a term whose denominator is zero (and so is replaced by the plain lower-order basis) is itself 0. |
| Basis.AgreesWithCoxDeBoor | central_model.py:61-86 | On non-decreasing knots, B equals the textbook Cox-de Boor recursion for every index, order and x. |
| Basis.LocalSupport | central_model.py:61-86 | On non-decreasing knots, B(i, k) is 0 outside [t[i], t[i+k+1]). |
| Basis.NonNegative | central_model.py:61-86 | On non-decreasing knots, B(i, k) is never negative. |
| Basis.LeftTermBounds | central_model.py:69-76 | On non-decreasing knots, the first term of Equation 3 lies between 0 and B(i, k-1). |
| Basis.RightIsComplement | central_model.py:78-84 | On non-decreasing knots, the second term of B(i, k) equals B(i+1, k-1) minus the first term of B(i+1, k). |
| Partition.PartitionOfUnity | central_model.py:61-86 | On non-decreasing knots, the basis functions a..b-1 of order k add up to exactly 1 for t[a+k] <= x < t[b]. |
| Partition.SumAtMostOne | central_model.py:61-86 | On non-decreasing knots, any run of consecutive basis functions adds up to at most 1 at every x. |
| Partition.BasisInUnitInterval | central_model.py:61-86 | On non-decreasing knots, every basis value lies in [0, 1]. |
| Partition.OrderZeroSum | central_model.py:62-66 | The order-0 spans a..b-1 tile [t[a], t[b]): their sum is 1 inside that range and 0 outside it. |
| WeightedSums.WhereSelects | central_model.py:105-106 | An index is selected exactly when it is in range and its basis value is at least the threshold, and the selected indices are strictly increasing. |
| WeightedSums.WhereRowSum | central_model.py:110-112 | Summing one row over the selected columns gives the row's masked sum. |
| WeightedSums.WhereGridSum | central_model.py:105-112 | The nested loop over both selections (rows outermost) equals the masked sum over the whole grid. |
| WeightedSums.MaskedGridUnfiltered | central_model.py:105-112 | When every basis value passes the threshold, the masked sum is the full sum. |
| WeightedSums.MaskedGridZero | central_model.py:105-112 | When on one axis every value either fails the threshold or is zero, the sum is the zero vector. |
| WeightedSums.SingleWeight | central_model.py:105-112 | When one row and one column carry the only non-zero weights and both pass the threshold, the sum is that single weighted control point. |
| WeightedSums.GridWeightFactors | central_model.py:112 | The weights Bh[i] * Bv[j] over the grid add up to (sum of Bh) * (sum of Bv). |
| WeightedSums.FullGridConstant | central_model.py:109-112 | A constant control grid c sums to c scaled by the total weight. |
| Camera.MapCoordinateRoundTrip | central_model.py:95-99 | The pixel-to-parameter mapping and its inverse undo each other in both directions. |
| Camera.MapCoordinateLandmarks | central_model.py:95-99 | The grid footprint's first and last pixel map to 0 and 1, and the image centre maps to 1/2. |
| Camera.MapCoordinateIncreasing | central_model.py:95-99 | For a grid wider than one pixel, the mapping is strictly increasing. |
| Camera.AccumulateRow | central_model.py:110-112 | The inner loop adds the weighted control points of the listed columns, in order, to the running sum. |
| Camera.Accumulate | central_model.py:108-112 | The nested loops return the sum of a[i][j] * Bh[i] * Bv[j] over the listed rows and columns. |
| Camera.Sample | central_model.py:88-114 | `sample(u, v)` returns `TruncatedSample`: the sum of a[i][j] * Bh[i] * Bv[j] over every i with Bh[i] >= min_basis_value and every j with Bv[j] >= min_basis_value. Bh is taken over `tv` and Bv over `th`, at the mapped coordinates. |
| Camera.TotalIsBasisSum | central_model.py:101-102 | Adding up the computed basis array gives the basis sum of the partition lemmas. |
| Camera.BasisValuesInUnitInterval | central_model.py:101-102 | On sorted knots, every entry of Bh and Bv lies in [0, 1]. |
| Camera.NoTruncation | central_model.py:104-112 | A threshold <= 0 filters nothing: `sample` is the full tensor-product sum. |
| Camera.EmptySelectionIsZero | central_model.py:105-114 | If no row or no column is selected, `sample` returns the zero vector. |
| Camera.OutsideSupportIsZero | central_model.py:95-114 | A pixel that maps outside the span of the knots in use samples to the zero vector, whatever the threshold. |
| Camera.WeightsSumToOne | central_model.py:101-102 | Inside the valid parameter range, the weights Bh[i] * Bv[j] over the grid add up to 1. |
| Camera.ConstantGridReproduced | central_model.py:88-114 | With no truncation and inside the valid range, a grid of identical control points c samples to c. |
| Camera.OrderZeroPicksControlPoint | central_model.py:88-114 | With order 0 and a threshold up to 1, a pixel in knot spans (i0, j0) samples exactly a[i0][j0]. |
| Camera.GridPixelSpan | central_model.py:129-130 | The sample positions floor(i * (G-1) / (count-1)) start at 0, end at G-1 and never decrease. |
| Camera.SampleGrid | central_model.py:128-139 | Returns a fresh n x m array whose entry (i, j) is `sample` at pixel (xs[i], ys[j]). |
| Camera.FarEdgeSampleIsZero | central_model.py:128-137 | When the image fills the grid and the knots end at 1, the last column `sample_grid` visits maps to parameter 1, which is outside every right-open basis span, so it samples to the zero vector. |

## Left out

- Floating point: all arithmetic is over exact reals. Rounding error in the
  Cox-de Boor quotients, in the coordinate mapping, and in the product
  inside `np.floor` in `sample_grid` is not modelled.
- `sample_normalized` is not modelled. It divides by a Euclidean norm, which
  has no exact counterpart over reals here, and it divides by zero when the
  sample is the zero vector.
- The knot generators of `knot_generators` are not part of this model. `Create`
  takes `open_uniform` and `uniform` as function parameters, and nothing is
  assumed about the length or order of the vectors they return.
- Camera.Sample: requires `SampleReady`, which includes knot vectors long
  enough for every index evaluated (n + order < |tv|, m + order < |th|). The
  source does not guarantee this. Because of the crossed pairing (Bh over
  `tv`, which is built for m), an n much larger than m makes `__B__` index
  past the end, which raises IndexError in the source. That error path is
  not modelled.
- Camera.Sample: requires grid width and height other than 1, because
  `grid_width - 1` and `grid_height - 1` are divisors in `sample`
  (central_model.py:96, 99). The source behaves in two ways for a size
  of 1. If `u` and `v` are plain Python numbers,
  `u /= self.grid_width - 1` raises ZeroDivisionError. If they are numpy
  floats, which is what `sample_grid` passes, nothing is raised and the
  basis is evaluated at an infinite or NaN parameter. Neither behaviour is
  modelled.
- Camera.SampleGrid: requires n > 1 and m > 1. The source divides the integer
  grid size - 1 by the integer n - 1 and m - 1, which raises
  ZeroDivisionError when either count is 1. It also requires `SampleReady`,
  for the knot-length and grid-size reasons above.
- The lemmas about basis values require non-decreasing knot vectors, which
  the generators are expected to supply. Without sorted knots,
  `RuleDiffersFromDroppingTerm` shows that the basis is no longer the
  textbook one.
- The numpy type and shape assertions (2-tuples for the dimensions, a rank-3
  array with a trailing dimension of 3) are expressed by the Dafny types,
  except the rectangular-grid check, which is `NotAControlGrid`.
- A negative `order` is excluded by its type (`nat`).
- `end_divergence` is accepted by the source's constructor but never used,
  so the model has no such field.
- The default arguments (`open_uniform`, `min_basis_value = 0.001`) are not
  defaults here. The threshold default is the constant `DefaultMinBasisValue`.
- `np.meshgrid` followed by `np.transpose` is modelled directly as the pair
  (xs[i], ys[j]) at position (i, j), which is what that combination yields.
