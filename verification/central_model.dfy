/** The camera model itself (`CentralModel`): construction with its checks,
    the pixel-to-parameter mapping, `sample` (the truncated weighted sum of
    control points) and `sample_grid`. */
module Camera {
  import opened Vectors
  import opened Basis
  import opened Partition
  import opened WeightedSums

  /** Why construction is refused: the assertions of `__init__`. */
  datatype ConfigError =
    | UnknownKnotMethod  // knot_method is neither 'open_uniform' nor 'uniform'
    | NotAControlGrid    // control_points is not an n x m grid of 3-vectors
    | OrderTooLarge      // order >= n or order >= m

  datatype Result<T> = Success(value: T) | Failure(error: ConfigError)

  /** The default significance threshold `min_basis_value`. */
  const DefaultMinBasisValue: real := 0.001

  /** The fields `__init__` sets; none of them changes afterwards. th is the
      knot vector built for n control points, tv the one built for m. */
  datatype CentralModel = CentralModel(
    imageWidth: int, imageHeight: int,
    gridWidth: int, gridHeight: int,
    n: nat, m: nat,
    a: seq<seq<Vec3>>,
    order: nat,
    th: seq<real>, tv: seq<real>,
    minBasisValue: real)

  /** Every row of the control points has the same length (a rank-3 array). */
  predicate Rectangular(controlPoints: seq<seq<Vec3>>) {
    forall i, j :: 0 <= i < |controlPoints| && 0 <= j < |controlPoints| ==>
      |controlPoints[i]| == |controlPoints[j]|
  }

  /** The second dimension of the control grid. */
  function Columns(controlPoints: seq<seq<Vec3>>): (r: nat) {
    if controlPoints == [] then 0 else |controlPoints[0]|
  }

  /** What a constructed model guarantees: a is an n x m grid and the order
      is below both counts. */
  predicate Valid(model: CentralModel) {
    && |model.a| == model.n
    && (forall i :: 0 <= i < model.n ==> |model.a[i]| == model.m)
    && model.order < model.n && model.order < model.m
  }

  /** `CentralModel.__init__`. The knot generators are external and are passed in. */
  function Create(imageWidth: int, imageHeight: int, gridWidth: int, gridHeight: int,
                  controlPoints: seq<seq<Vec3>>, order: nat, knotMethod: string,
                  minBasisValue: real,
                  openUniform: (nat, nat) -> seq<real>, uniform: (nat, nat) -> seq<real>)
    : (r: Result<CentralModel>)
    ensures knotMethod != "open_uniform" && knotMethod != "uniform" ==>
      r == Failure(UnknownKnotMethod)
    ensures (knotMethod == "open_uniform" || knotMethod == "uniform") && !Rectangular(controlPoints) ==>
      r == Failure(NotAControlGrid)
    ensures (knotMethod == "open_uniform" || knotMethod == "uniform") && Rectangular(controlPoints)
            && (|controlPoints| <= order || Columns(controlPoints) <= order) ==>
      r == Failure(OrderTooLarge)
    ensures (knotMethod == "open_uniform" || knotMethod == "uniform") && Rectangular(controlPoints)
            && order < |controlPoints| && order < Columns(controlPoints) ==>
      r.Success?
    ensures r.Success? ==>
      && Valid(r.value)
      && r.value.a == controlPoints
      && r.value.n == |controlPoints| && r.value.m == Columns(controlPoints)
      && r.value.order == order && r.value.minBasisValue == minBasisValue
      && r.value.imageWidth == imageWidth && r.value.imageHeight == imageHeight
      && r.value.gridWidth == gridWidth && r.value.gridHeight == gridHeight
      && (knotMethod == "open_uniform" ==>
            r.value.th == openUniform(r.value.n, order) && r.value.tv == openUniform(r.value.m, order))
      && (knotMethod == "uniform" ==>
            r.value.th == uniform(r.value.n, order) && r.value.tv == uniform(r.value.m, order))
  {
    if knotMethod != "open_uniform" && knotMethod != "uniform" then
      Failure(UnknownKnotMethod)
    else if !Rectangular(controlPoints) then
      Failure(NotAControlGrid)
    else if !(|controlPoints| > order && Columns(controlPoints) > order) then
      Failure(OrderTooLarge)
    else
      var n, m := |controlPoints|, Columns(controlPoints);
      var th := if knotMethod == "open_uniform" then openUniform(n, order) else uniform(n, order);
      var tv := if knotMethod == "open_uniform" then openUniform(m, order) else uniform(m, order);
      Success(CentralModel(imageWidth, imageHeight, gridWidth, gridHeight, n, m, controlPoints,
                           order, th, tv, minBasisValue))
  }

  /** The pixel-to-parameter mapping of `sample`: centre the image in the
      calibration grid and divide by (grid size - 1). No clamping. */
  function MapCoordinate(p: real, gridSize: int, imageSize: int): (r: real)
    requires gridSize != 1
  {
    (p + (gridSize - imageSize) as real / 2.0) / (gridSize - 1) as real
  }

  /** The inverse mapping, from a spline parameter back to a pixel coordinate. */
  function PixelOf(q: real, gridSize: int, imageSize: int): (r: real) {
    q * (gridSize - 1) as real - (gridSize - imageSize) as real / 2.0
  }

  /** MapCoordinate and PixelOf are inverse to each other. */
  lemma MapCoordinateRoundTrip(p: real, q: real, gridSize: int, imageSize: int)
    requires gridSize != 1
    ensures PixelOf(MapCoordinate(p, gridSize, imageSize), gridSize, imageSize) == p
    ensures MapCoordinate(PixelOf(q, gridSize, imageSize), gridSize, imageSize) == q
  {
    var d := (gridSize - 1) as real;
    var shift := (gridSize - imageSize) as real / 2.0;
    assert (p + shift) / d * d == p + shift;
    assert q * d / d == q;
  }

  /** The grid footprint [-(G - I) / 2, (G + I) / 2 - 1] maps onto [0, 1],
      with the image centre at 1/2. */
  lemma MapCoordinateLandmarks(gridSize: int, imageSize: int)
    requires gridSize != 1
    ensures MapCoordinate(-((gridSize - imageSize) as real) / 2.0, gridSize, imageSize) == 0.0
    ensures MapCoordinate((gridSize + imageSize) as real / 2.0 - 1.0, gridSize, imageSize) == 1.0
    ensures MapCoordinate((imageSize - 1) as real / 2.0, gridSize, imageSize) == 0.5
  {
    MapCoordinateRoundTrip(0.0, 0.0, gridSize, imageSize);
    MapCoordinateRoundTrip(0.0, 1.0, gridSize, imageSize);
    MapCoordinateRoundTrip(0.0, 0.5, gridSize, imageSize);
  }

  /** For a grid wider than one pixel the mapping is strictly increasing. */
  lemma MapCoordinateIncreasing(p: real, q: real, gridSize: int, imageSize: int)
    requires gridSize > 1 && p < q
    ensures MapCoordinate(p, gridSize, imageSize) < MapCoordinate(q, gridSize, imageSize)
  {
    var d := (gridSize - 1) as real;
    var shift := (gridSize - imageSize) as real / 2.0;
    assert (q + shift) / d - (p + shift) / d == (q - p) / d;
  }

  /** The order-k basis values of indices 0 <= i < count at x. */
  function BasisValues(t: seq<real>, x: real, count: nat, k: nat): (r: seq<real>)
    requires count + k < |t|
  {
    seq(count, i requires 0 <= i < count => B(i, k, t, x))
  }

  /** What `sample` needs beyond a constructed model: grid sizes other than 1
      (they are divisors) and knot vectors long enough for every index it
      evaluates. */
  predicate SampleReady(model: CentralModel) {
    && Valid(model)
    && model.gridWidth != 1 && model.gridHeight != 1
    && model.n + model.order < |model.tv|
    && model.m + model.order < |model.th|
  }

  /** Bh of `sample`: n values over the knot vector tv at the mapped u. */
  function HorizontalBasis(model: CentralModel, u: real): (r: seq<real>)
    requires SampleReady(model)
  {
    BasisValues(model.tv, MapCoordinate(u, model.gridWidth, model.imageWidth), model.n, model.order)
  }

  /** Bv of `sample`: m values over the knot vector th at the mapped v. */
  function VerticalBasis(model: CentralModel, v: real): (r: seq<real>)
    requires SampleReady(model)
  {
    BasisValues(model.th, MapCoordinate(v, model.gridHeight, model.imageHeight), model.m, model.order)
  }

  /** The value of `sample(u, v)`: the sum of a[i][j] * Bh[i] * Bv[j] over
      every i with Bh[i] >= min_basis_value and every j with
      Bv[j] >= min_basis_value. */
  function TruncatedSample(model: CentralModel, u: real, v: real): (r: Vec3)
    requires SampleReady(model)
  {
    var bh, bv := HorizontalBasis(model, u), VerticalBasis(model, v);
    MaskedGrid(Weighted(model.a, bh, bv), bh, bv, model.minBasisValue, model.n)
  }

  /** The untruncated surface value: the sum of a[i][j] * Bh[i] * Bv[j] over the whole grid. */
  function FullSample(model: CentralModel, u: real, v: real): (r: Vec3)
    requires SampleReady(model)
  {
    var bh, bv := HorizontalBasis(model, u), VerticalBasis(model, v);
    FullGrid(Weighted(model.a, bh, bv), bh, bv, model.n)
  }

  /** The inner loop of `sample`: add a[i][j] * Bh[i] * Bv[j] to `acc` for
      every listed column j, in order. */
  method AccumulateRow(acc: Vec3, a: seq<seq<Vec3>>, bh: seq<real>, bv: seq<real>, i: nat, vj: seq<nat>)
    returns (res: Vec3)
    requires Shaped(a, bh, bv) && i < |bh| && Below(vj, |bv|)
    ensures res == Add(acc, RowSum(Weighted(a, bh, bv), bh, bv, i, vj))
  {
    ghost var w := Weighted(a, bh, bv);
    res := acc;
    for q := 0 to |vj|
      invariant res == Add(acc, RowSum(w, bh, bv, i, vj[..q]))
    {
      var j := vj[q];
      RowStep(w, bh, bv, acc, i, vj, q);
      var term := Scale(a[i][j], bh[i] * bv[j]);
      WeightedEntry(a, bh, bv, i, j);
      res := Add(res, term);
    }
    assert vj[..|vj|] == vj;
  }

  /** The nested loops of `sample`: add up a[i][j] * Bh[i] * Bv[j] for every
      listed row i and listed column j, rows outermost. */
  method Accumulate(a: seq<seq<Vec3>>, bh: seq<real>, bv: seq<real>, vi: seq<nat>, vj: seq<nat>)
    returns (res: Vec3)
    requires Shaped(a, bh, bv) && Below(vi, |bh|) && Below(vj, |bv|)
    ensures res == GridSum(Weighted(a, bh, bv), bh, bv, vi, vj)
  {
    ghost var w := Weighted(a, bh, bv);
    res := Zero;
    for p := 0 to |vi|
      invariant res == GridSum(w, bh, bv, vi[..p], vj)
    {
      res := AccumulateRow(res, a, bh, bv, vi[p], vj);
      GridStep(w, bh, bv, vi, vj, p);
    }
    assert vi[..|vi|] == vi;
  }

  /** `CentralModel.sample`: map the pixel, evaluate both basis arrays, keep
      the significant indices and accumulate the weighted control points. */
  method Sample(model: CentralModel, u: real, v: real) returns (res: Vec3)
    requires SampleReady(model)
    ensures res == TruncatedSample(model, u, v)
  {
    var up := u + (model.gridWidth - model.imageWidth) as real / 2.0;
    up := up / (model.gridWidth - 1) as real;
    var vp := v + (model.gridHeight - model.imageHeight) as real / 2.0;
    vp := vp / (model.gridHeight - 1) as real;

    assert up == MapCoordinate(u, model.gridWidth, model.imageWidth);
    assert vp == MapCoordinate(v, model.gridHeight, model.imageHeight);

    var bh := BasisValues(model.tv, up, model.n, model.order);
    var bv := BasisValues(model.th, vp, model.m, model.order);
    assert bh == HorizontalBasis(model, u) && bv == VerticalBasis(model, v);
    var a := model.a;
    assert Shaped(a, bh, bv);

    var vi := Where(bh, model.minBasisValue);
    var vj := Where(bv, model.minBasisValue);

    res := Accumulate(a, bh, bv, vi, vj);
    assert bh[..|bh|] == bh;
    WhereGridSum(Weighted(a, bh, bv), bh, bv, model.minBasisValue, |bh|);
  }

  /** The pixel coordinate floor(i * (gridSize - 1) / (count - 1)) at which
      `sample_grid` samples control-point index i. */
  function GridPixel(i: nat, gridSize: int, count: nat): (r: int)
    requires count > 1
  {
    ((gridSize - 1) as real / (count - 1) as real * i as real).Floor
  }

  /** The sample positions run from pixel 0 to pixel gridSize - 1 in
      non-decreasing order. */
  lemma GridPixelSpan(i: nat, j: nat, gridSize: int, count: nat)
    requires count > 1 && gridSize >= 1 && i <= j < count
    ensures GridPixel(0, gridSize, count) == 0
    ensures GridPixel(count - 1, gridSize, count) == gridSize - 1
    ensures 0 <= GridPixel(i, gridSize, count) <= GridPixel(j, gridSize, count) <= gridSize - 1
  {
    var span, d := (gridSize - 1) as real, (count - 1) as real;
    var step := span / d;
    assert step * d == span;
    StepMonotone(step, 0.0, i as real);
    StepMonotone(step, i as real, j as real);
    StepMonotone(step, j as real, d);
  }

  /** Multiplying by a non-negative step keeps the order of two positions. */
  lemma StepMonotone(step: real, x: real, y: real)
    requires 0.0 <= step && x <= y
    ensures step * x <= step * y
    ensures (step * x).Floor <= (step * y).Floor
  {
    assert step * y - step * x == step * (y - x);
  }

  /** `CentralModel.sample_grid`: sample the surface at the pixel position of
      every control-point index (i, j). */
  method SampleGrid(model: CentralModel) returns (samples: array2<Vec3>)
    requires SampleReady(model) && model.n > 1 && model.m > 1
    ensures fresh(samples)
    ensures samples.Length0 == model.n && samples.Length1 == model.m
    ensures forall i, j :: 0 <= i < model.n && 0 <= j < model.m ==>
      samples[i, j] == TruncatedSample(model, GridPixel(i, model.gridWidth, model.n) as real,
                                              GridPixel(j, model.gridHeight, model.m) as real)
  {
    var xs := seq(model.n, i requires 0 <= i < model.n => GridPixel(i, model.gridWidth, model.n) as real);
    var ys := seq(model.m, j requires 0 <= j < model.m => GridPixel(j, model.gridHeight, model.m) as real);
    samples := new Vec3[model.n, model.m];
    for i := 0 to model.n
      invariant forall i', j' :: 0 <= i' < i && 0 <= j' < model.m ==>
        samples[i', j'] == TruncatedSample(model, xs[i'], ys[j'])
    {
      for j := 0 to model.m
        invariant forall i', j' :: 0 <= i' < i && 0 <= j' < model.m ==>
          samples[i', j'] == TruncatedSample(model, xs[i'], ys[j'])
        invariant forall j' :: 0 <= j' < j ==> samples[i, j'] == TruncatedSample(model, xs[i], ys[j'])
      {
        var s := Sample(model, xs[i], ys[j]);
        samples[i, j] := s;
      }
    }
  }

  /** Summing the first l of the basis values is the basis sum over [0, l). */
  lemma {:induction false} TotalIsBasisSum(t: seq<real>, x: real, count: nat, k: nat, l: nat)
    requires count + k < |t| && l <= count
    ensures Total(BasisValues(t, x, count, k), l) == BasisSum(0, l, k, t, x)
  {
    if l > 0 {
      TotalIsBasisSum(t, x, count, k, l - 1);
    }
  }

  /** Over sorted knots every basis value `sample` computes lies in [0, 1]. */
  lemma BasisValuesInUnitInterval(model: CentralModel, u: real, v: real)
    requires SampleReady(model) && NonDecreasing(model.tv) && NonDecreasing(model.th)
    ensures forall i :: 0 <= i < model.n ==> 0.0 <= HorizontalBasis(model, u)[i] <= 1.0
    ensures forall j :: 0 <= j < model.m ==> 0.0 <= VerticalBasis(model, v)[j] <= 1.0
  {
    var up := MapCoordinate(u, model.gridWidth, model.imageWidth);
    var vp := MapCoordinate(v, model.gridHeight, model.imageHeight);
    forall i | 0 <= i < model.n
      ensures 0.0 <= HorizontalBasis(model, u)[i] <= 1.0
    {
      BasisInUnitInterval(i, model.order, model.tv, up);
    }
    forall j | 0 <= j < model.m
      ensures 0.0 <= VerticalBasis(model, v)[j] <= 1.0
    {
      BasisInUnitInterval(j, model.order, model.th, vp);
    }
  }

  /** With a threshold of zero or below nothing is filtered out: `sample`
      returns the full tensor-product surface value. */
  lemma NoTruncation(model: CentralModel, u: real, v: real)
    requires SampleReady(model) && NonDecreasing(model.tv) && NonDecreasing(model.th)
    requires model.minBasisValue <= 0.0
    ensures TruncatedSample(model, u, v) == FullSample(model, u, v)
  {
    BasisValuesInUnitInterval(model, u, v);
    var bh, bv := HorizontalBasis(model, u), VerticalBasis(model, v);
    MaskedGridUnfiltered(Weighted(model.a, bh, bv), bh, bv, model.minBasisValue, model.n);
  }

  /** If no row or no column passes the filter, `sample` returns the zero vector. */
  lemma EmptySelectionIsZero(model: CentralModel, u: real, v: real)
    requires SampleReady(model)
    requires Where(HorizontalBasis(model, u), model.minBasisValue) == []
          || Where(VerticalBasis(model, v), model.minBasisValue) == []
    ensures TruncatedSample(model, u, v) == Zero
  {
    var bh, bv := HorizontalBasis(model, u), VerticalBasis(model, v);
    var thr := model.minBasisValue;
    WhereSelects(bh, thr);
    WhereSelects(bv, thr);
    MaskedGridZero(model.a, bh, bv, thr, model.n);
  }

  /** A pixel whose mapped coordinate lies outside the span of the knots in
      use samples to the zero vector, whatever the threshold. */
  lemma OutsideSupportIsZero(model: CentralModel, u: real, v: real)
    requires SampleReady(model) && NonDecreasing(model.tv) && NonDecreasing(model.th)
    requires var up := MapCoordinate(u, model.gridWidth, model.imageWidth);
             var vp := MapCoordinate(v, model.gridHeight, model.imageHeight);
             || up < model.tv[0] || model.tv[model.n + model.order] <= up
             || vp < model.th[0] || model.th[model.m + model.order] <= vp
    ensures TruncatedSample(model, u, v) == Zero
  {
    var up := MapCoordinate(u, model.gridWidth, model.imageWidth);
    var vp := MapCoordinate(v, model.gridHeight, model.imageHeight);
    var bh, bv := HorizontalBasis(model, u), VerticalBasis(model, v);
    if up < model.tv[0] || model.tv[model.n + model.order] <= up {
      forall i | 0 <= i < model.n
        ensures bh[i] == 0.0
      {
        LocalSupport(i, model.order, model.tv, up);
      }
    } else {
      forall j | 0 <= j < model.m
        ensures bv[j] == 0.0
      {
        LocalSupport(j, model.order, model.th, vp);
      }
    }
    MaskedGridZero(model.a, bh, bv, model.minBasisValue, model.n);
  }

  /** Affine invariance in its simplest form: inside the valid parameter
      range, a grid whose control points all equal c samples to c. */
  lemma ConstantGridReproduced(model: CentralModel, u: real, v: real, c: Vec3)
    requires SampleReady(model) && NonDecreasing(model.tv) && NonDecreasing(model.th)
    requires model.minBasisValue <= 0.0
    requires forall i, j :: 0 <= i < model.n && 0 <= j < model.m ==> model.a[i][j] == c
    requires var up := MapCoordinate(u, model.gridWidth, model.imageWidth);
             model.tv[model.order] <= up < model.tv[model.n]
    requires var vp := MapCoordinate(v, model.gridHeight, model.imageHeight);
             model.th[model.order] <= vp < model.th[model.m]
    ensures TruncatedSample(model, u, v) == c
  {
    var bh, bv := HorizontalBasis(model, u), VerticalBasis(model, v);
    NoTruncation(model, u, v);
    FullGridConstant(model.a, bh, bv, c, model.n);
    WeightsSumToOne(model, u, v);
    assert Scale(c, 1.0) == c;
  }

  /** Inside the valid parameter range the products Bh[i] * Bv[j] over the
      whole grid add up to 1. */
  lemma WeightsSumToOne(model: CentralModel, u: real, v: real)
    requires SampleReady(model) && NonDecreasing(model.tv) && NonDecreasing(model.th)
    requires var up := MapCoordinate(u, model.gridWidth, model.imageWidth);
             model.tv[model.order] <= up < model.tv[model.n]
    requires var vp := MapCoordinate(v, model.gridHeight, model.imageHeight);
             model.th[model.order] <= vp < model.th[model.m]
    ensures GridWeight(HorizontalBasis(model, u), VerticalBasis(model, v), model.n) == 1.0
  {
    var up := MapCoordinate(u, model.gridWidth, model.imageWidth);
    var vp := MapCoordinate(v, model.gridHeight, model.imageHeight);
    var bh, bv := HorizontalBasis(model, u), VerticalBasis(model, v);
    GridWeightFactors(bh, bv, model.n);
    TotalIsBasisSum(model.tv, up, model.n, model.order, model.n);
    TotalIsBasisSum(model.th, vp, model.m, model.order, model.m);
    PartitionOfUnity(0, model.n, model.order, model.tv, up);
    PartitionOfUnity(0, model.m, model.order, model.th, vp);
  }

  /** With order 0 the surface is piecewise constant: a pixel whose mapped
      coordinates fall in knot spans i0 and j0 samples exactly a[i0][j0]
      (for any threshold up to 1). */
  lemma OrderZeroPicksControlPoint(model: CentralModel, u: real, v: real, i0: nat, j0: nat)
    requires SampleReady(model) && NonDecreasing(model.tv) && NonDecreasing(model.th)
    requires model.order == 0 && model.minBasisValue <= 1.0
    requires i0 < model.n && j0 < model.m
    requires var up := MapCoordinate(u, model.gridWidth, model.imageWidth);
             model.tv[i0] <= up < model.tv[i0 + 1]
    requires var vp := MapCoordinate(v, model.gridHeight, model.imageHeight);
             model.th[j0] <= vp < model.th[j0 + 1]
    ensures TruncatedSample(model, u, v) == model.a[i0][j0]
  {
    var up := MapCoordinate(u, model.gridWidth, model.imageWidth);
    var vp := MapCoordinate(v, model.gridHeight, model.imageHeight);
    var bh, bv := HorizontalBasis(model, u), VerticalBasis(model, v);
    var thr := model.minBasisValue;
    forall i | 0 <= i < model.n && i != i0
      ensures bh[i] == 0.0
    {
      if i < i0 {
        assert model.tv[i + 1] <= model.tv[i0];
      } else {
        assert model.tv[i0 + 1] <= model.tv[i];
      }
    }
    forall j | 0 <= j < model.m && j != j0
      ensures bv[j] == 0.0
    {
      if j < j0 {
        assert model.th[j + 1] <= model.th[j0];
      } else {
        assert model.th[j0 + 1] <= model.th[j];
      }
    }
    assert bh[i0] == 1.0 && bv[j0] == 1.0;
    SingleWeight(model.a, bh, bv, thr, i0, j0);
    assert Scale(model.a[i0][j0], 1.0 * 1.0) == model.a[i0][j0];
  }

  /** When the image fills the calibration grid, the last column that
      `sample_grid` visits maps to parameter 1; knots that end at 1 then
      leave it outside every basis function's support, so it samples to the
      zero vector (the basis intervals are right-open). */
  lemma FarEdgeSampleIsZero(model: CentralModel, v: real)
    requires SampleReady(model) && NonDecreasing(model.tv) && NonDecreasing(model.th)
    requires model.n > 1 && model.gridWidth > 1 && model.imageWidth == model.gridWidth
    requires model.tv[model.n + model.order] <= 1.0
    ensures TruncatedSample(model, GridPixel(model.n - 1, model.gridWidth, model.n) as real, v) == Zero
  {
    var g := model.gridWidth;
    GridPixelSpan(0, 0, g, model.n);
    MapCoordinateLandmarks(g, g);
    assert (g + g) as real / 2.0 - 1.0 == (g - 1) as real;
    OutsideSupportIsZero(model, GridPixel(model.n - 1, g, model.n) as real, v);
  }
}
