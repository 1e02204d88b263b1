/** The weighted sums that `CentralModel.sample` accumulates: the
    significance filter (`np.where(B >= min_basis_value)`), the double sum over
    the selected index lists, and the same sum stated as a masked sum over
    every control point. */
module WeightedSums {
  import opened Vectors

  /** A control grid g with one row per entry of bh and one column per entry of bv. */
  predicate Shaped(g: seq<seq<Vec3>>, bh: seq<real>, bv: seq<real>) {
    |g| == |bh| && forall i :: 0 <= i < |g| ==> |g[i]| == |bv|
  }

  /** Every index in J is below `bound`. */
  predicate Below(J: seq<nat>, bound: nat) {
    forall q :: 0 <= q < |J| ==> J[q] < bound
  }

  /** The indices i with thr <= b[i], in increasing order (`np.where(b >= thr)[0]`).
      WhereSelects states what it lists. */
  function Where(b: seq<real>, thr: real): (r: seq<nat>)
    ensures Below(r, |b|)
    decreases |b|
  {
    if b == [] then []
    else
      var init := Where(b[..|b| - 1], thr);
      if thr <= b[|b| - 1] then init + [|b| - 1] else init
  }

  /** Where lists exactly the indices whose entries pass the filter, each
      once, in strictly increasing order. */
  lemma {:induction false} WhereSelects(b: seq<real>, thr: real)
    ensures forall i :: i in Where(b, thr) <==> 0 <= i < |b| && thr <= b[i]
    ensures forall p, q :: 0 <= p < q < |Where(b, thr)| ==> Where(b, thr)[p] < Where(b, thr)[q]
    decreases |b|
  {
    if b != [] {
      var n := |b| - 1;
      WhereSelects(b[..n], thr);
      WhereLast(b, thr);
      assert forall i :: 0 <= i < n ==> b[..n][i] == b[i];
    }
  }

  /** The weighted control points a[i][j] * (bh[i] * bv[j]): what `sample`
      adds for the pair (i, j). */
  function Weighted(g: seq<seq<Vec3>>, bh: seq<real>, bv: seq<real>): (w: seq<seq<Vec3>>)
    requires Shaped(g, bh, bv)
    ensures Shaped(w, bh, bv)
  {
    seq(|bh|, i requires 0 <= i < |bh| => WeightedRow(g, bh, bv, i))
  }

  /** Row i of the weighted control points. */
  function WeightedRow(g: seq<seq<Vec3>>, bh: seq<real>, bv: seq<real>, i: nat): (row: seq<Vec3>)
    requires Shaped(g, bh, bv) && i < |bh|
    ensures |row| == |bv|
  {
    seq(|bv|, j requires 0 <= j < |bv| => WeightedPoint(g[i][j], bh[i], bv[j]))
  }

  /** One control point scaled by the product of its two weights. */
  function WeightedPoint(c: Vec3, h: real, v: real): (r: Vec3) {
    Scale(c, h * v)
  }

  /** Entry (i, j) of the weighted grid. */
  lemma WeightedEntry(g: seq<seq<Vec3>>, bh: seq<real>, bv: seq<real>, i: nat, j: nat)
    requires Shaped(g, bh, bv) && i < |bh| && j < |bv|
    ensures Weighted(g, bh, bv)[i][j] == Scale(g[i][j], bh[i] * bv[j])
  {
    assert Weighted(g, bh, bv)[i] == WeightedRow(g, bh, bv, i);
  }

  /** The sum of w[i][j] over the column indices listed in J. */
  function RowSum(w: seq<seq<Vec3>>, bh: seq<real>, bv: seq<real>, i: nat, J: seq<nat>): (r: Vec3)
    requires Shaped(w, bh, bv) && i < |bh| && Below(J, |bv|)
    decreases |J|
  {
    if J == [] then Zero
    else Add(RowSum(w, bh, bv, i, J[..|J| - 1]), w[i][J[|J| - 1]])
  }

  /** The sum of w[i][j] over i listed in I and j listed in J. */
  function GridSum(w: seq<seq<Vec3>>, bh: seq<real>, bv: seq<real>, I: seq<nat>, J: seq<nat>): (r: Vec3)
    requires Shaped(w, bh, bv) && Below(I, |bh|) && Below(J, |bv|)
    decreases |I|
  {
    if I == [] then Zero
    else Add(GridSum(w, bh, bv, I[..|I| - 1], J), RowSum(w, bh, bv, I[|I| - 1], J))
  }

  /** The sum over j < l of w[i][j], counting only columns with thr <= bv[j]. */
  function MaskedRow(w: seq<seq<Vec3>>, bh: seq<real>, bv: seq<real>, thr: real, i: nat, l: nat): (r: Vec3)
    requires Shaped(w, bh, bv) && i < |bh| && l <= |bv|
  {
    if l == 0 then Zero
    else Add(MaskedRow(w, bh, bv, thr, i, l - 1), if thr <= bv[l - 1] then w[i][l - 1] else Zero)
  }

  /** The sum over i < k and all columns j of w[i][j], counting only rows
      with thr <= bh[i] and columns with thr <= bv[j]. */
  function MaskedGrid(w: seq<seq<Vec3>>, bh: seq<real>, bv: seq<real>, thr: real, k: nat): (r: Vec3)
    requires Shaped(w, bh, bv) && k <= |bh|
  {
    if k == 0 then Zero
    else Add(MaskedGrid(w, bh, bv, thr, k - 1),
             if thr <= bh[k - 1] then MaskedRow(w, bh, bv, thr, k - 1, |bv|) else Zero)
  }

  /** The sum over j < l of w[i][j], without any filter. */
  function FullRow(w: seq<seq<Vec3>>, bh: seq<real>, bv: seq<real>, i: nat, l: nat): (r: Vec3)
    requires Shaped(w, bh, bv) && i < |bh| && l <= |bv|
  {
    if l == 0 then Zero else Add(FullRow(w, bh, bv, i, l - 1), w[i][l - 1])
  }

  /** The sum over i < k and all columns j of w[i][j], without any filter. */
  function FullGrid(w: seq<seq<Vec3>>, bh: seq<real>, bv: seq<real>, k: nat): (r: Vec3)
    requires Shaped(w, bh, bv) && k <= |bh|
  {
    if k == 0 then Zero else Add(FullGrid(w, bh, bv, k - 1), FullRow(w, bh, bv, k - 1, |bv|))
  }

  /** The real sum of the first k entries of s. */
  function Total(s: seq<real>, k: nat): (r: real)
    requires k <= |s|
  {
    if k == 0 then 0.0 else Total(s, k - 1) + s[k - 1]
  }

  /** Where grows by the last index exactly when the last entry passes the filter. */
  lemma WhereLast(b: seq<real>, thr: real)
    requires b != []
    ensures Where(b, thr) == if thr <= b[|b| - 1] then Where(b[..|b| - 1], thr) + [|b| - 1]
                             else Where(b[..|b| - 1], thr)
  {
  }

  /** Appending a column index adds that column's entry. */
  lemma RowSumLast(w: seq<seq<Vec3>>, bh: seq<real>, bv: seq<real>, i: nat, J: seq<nat>, j: nat)
    requires Shaped(w, bh, bv) && i < |bh| && Below(J, |bv|) && j < |bv|
    ensures Below(J + [j], |bv|)
    ensures RowSum(w, bh, bv, i, J + [j]) == Add(RowSum(w, bh, bv, i, J), w[i][j])
  {
    assert (J + [j])[..|J|] == J;
  }

  /** Appending a row index adds that row's sum. */
  lemma GridSumLast(w: seq<seq<Vec3>>, bh: seq<real>, bv: seq<real>, I: seq<nat>, J: seq<nat>, i: nat)
    requires Shaped(w, bh, bv) && Below(I, |bh|) && Below(J, |bv|) && i < |bh|
    ensures Below(I + [i], |bh|)
    ensures GridSum(w, bh, bv, I + [i], J) == Add(GridSum(w, bh, bv, I, J), RowSum(w, bh, bv, i, J))
  {
    assert (I + [i])[..|I|] == I;
  }

  /** One step of the inner accumulation: with `done` plus the row sum over
      the first q listed columns accumulated, adding w[i][J[q]] covers the
      first q + 1. */
  lemma RowStep(w: seq<seq<Vec3>>, bh: seq<real>, bv: seq<real>, done: Vec3,
                i: nat, J: seq<nat>, q: nat)
    requires Shaped(w, bh, bv) && i < |bh| && Below(J, |bv|) && q < |J|
    ensures Add(Add(done, RowSum(w, bh, bv, i, J[..q])), w[i][J[q]])
            == Add(done, RowSum(w, bh, bv, i, J[..q + 1]))
  {
    assert J[..q + 1] == J[..q] + [J[q]];
    RowSumLast(w, bh, bv, i, J[..q], J[q]);
  }

  /** One step of the outer accumulation: the grid sum over the first p
      listed rows plus the full row I[p] covers the first p + 1. */
  lemma GridStep(w: seq<seq<Vec3>>, bh: seq<real>, bv: seq<real>, I: seq<nat>, J: seq<nat>, p: nat)
    requires Shaped(w, bh, bv) && Below(I, |bh|) && Below(J, |bv|) && p < |I|
    ensures Add(GridSum(w, bh, bv, I[..p], J), RowSum(w, bh, bv, I[p], J))
            == GridSum(w, bh, bv, I[..p + 1], J)
  {
    assert I[..p + 1][..p] == I[..p];
  }

  /** Summing over the filtered column list is summing over every column
      with the filter as a mask. */
  lemma {:induction false} WhereRowSum(w: seq<seq<Vec3>>, bh: seq<real>, bv: seq<real>,
                                        thr: real, i: nat, l: nat)
    requires Shaped(w, bh, bv) && i < |bh| && l <= |bv|
    ensures RowSum(w, bh, bv, i, Where(bv[..l], thr)) == MaskedRow(w, bh, bv, thr, i, l)
  {
    if l > 0 {
      WhereRowSum(w, bh, bv, thr, i, l - 1);
      WhereLast(bv[..l], thr);
      assert bv[..l][..l - 1] == bv[..l - 1];
      if thr <= bv[l - 1] {
        RowSumLast(w, bh, bv, i, Where(bv[..l - 1], thr), l - 1);
      }
    }
  }

  /** Summing over both filtered index lists is the masked sum over the whole grid. */
  lemma {:induction false} WhereGridSum(w: seq<seq<Vec3>>, bh: seq<real>, bv: seq<real>,
                                         thr: real, k: nat)
    requires Shaped(w, bh, bv) && k <= |bh|
    ensures GridSum(w, bh, bv, Where(bh[..k], thr), Where(bv, thr)) == MaskedGrid(w, bh, bv, thr, k)
  {
    if k == 0 {
      assert bh[..0] == [];
    } else {
      var I, J := Where(bh[..k - 1], thr), Where(bv, thr);
      WhereGridSum(w, bh, bv, thr, k - 1);
      WhereLast(bh[..k], thr);
      assert bh[..k][..k - 1] == bh[..k - 1];
      if thr <= bh[k - 1] {
        GridSumLast(w, bh, bv, I, J, k - 1);
        WhereRowSum(w, bh, bv, thr, k - 1, |bv|);
        assert bv[..|bv|] == bv;
      }
    }
  }

  /** A row whose every column passes the filter sums as if unfiltered. */
  lemma {:induction false} MaskedRowUnfiltered(w: seq<seq<Vec3>>, bh: seq<real>, bv: seq<real>,
                                                thr: real, i: nat, l: nat)
    requires Shaped(w, bh, bv) && i < |bh| && l <= |bv|
    requires forall j :: 0 <= j < |bv| ==> thr <= bv[j]
    ensures MaskedRow(w, bh, bv, thr, i, l) == FullRow(w, bh, bv, i, l)
  {
    if l > 0 {
      MaskedRowUnfiltered(w, bh, bv, thr, i, l - 1);
    }
  }

  /** When every weight passes the filter, the masked sum is the full sum. */
  lemma {:induction false} MaskedGridUnfiltered(w: seq<seq<Vec3>>, bh: seq<real>, bv: seq<real>,
                                                 thr: real, k: nat)
    requires Shaped(w, bh, bv) && k <= |bh|
    requires forall i :: 0 <= i < |bh| ==> thr <= bh[i]
    requires forall j :: 0 <= j < |bv| ==> thr <= bv[j]
    ensures MaskedGrid(w, bh, bv, thr, k) == FullGrid(w, bh, bv, k)
  {
    if k > 0 {
      MaskedGridUnfiltered(w, bh, bv, thr, k - 1);
      MaskedRowUnfiltered(w, bh, bv, thr, k - 1, |bv|);
    }
  }

  /** A weighted control point with a zero weight on either axis is the zero vector. */
  lemma WeightedZero(g: seq<seq<Vec3>>, bh: seq<real>, bv: seq<real>, i: nat, j: nat)
    requires Shaped(g, bh, bv) && i < |bh| && j < |bv| && (bh[i] == 0.0 || bv[j] == 0.0)
    ensures Weighted(g, bh, bv)[i][j] == Zero
  {
    var c, p := g[i][j], bh[i] * bv[j];
    assert p == 0.0;
    WeightedEntry(g, bh, bv, i, j);
  }

  /** A row in which every column either fails the filter or holds the zero
      vector sums to the zero vector. */
  lemma {:induction false} MaskedRowZero(w: seq<seq<Vec3>>, bh: seq<real>, bv: seq<real>,
                                          thr: real, i: nat, l: nat)
    requires Shaped(w, bh, bv) && i < |bh| && l <= |bv|
    requires forall j :: 0 <= j < |bv| ==> bv[j] < thr || w[i][j] == Zero
    ensures MaskedRow(w, bh, bv, thr, i, l) == Zero
  {
    if l > 0 {
      MaskedRowZero(w, bh, bv, thr, i, l - 1);
    }
  }

  /** The masked weighted sum is the zero vector when, on one of the two
      axes, every weight either fails the filter or is zero. */
  lemma {:induction false} MaskedGridZero(g: seq<seq<Vec3>>, bh: seq<real>, bv: seq<real>,
                                           thr: real, k: nat)
    requires Shaped(g, bh, bv) && k <= |bh|
    requires (forall i :: 0 <= i < |bh| ==> bh[i] < thr || bh[i] == 0.0)
          || (forall j :: 0 <= j < |bv| ==> bv[j] < thr || bv[j] == 0.0)
    ensures MaskedGrid(Weighted(g, bh, bv), bh, bv, thr, k) == Zero
  {
    var w := Weighted(g, bh, bv);
    if k > 0 {
      MaskedGridZero(g, bh, bv, thr, k - 1);
      if thr <= bh[k - 1] {
        forall j | 0 <= j < |bv| && thr <= bv[j]
          ensures w[k - 1][j] == Zero
        {
          WeightedZero(g, bh, bv, k - 1, j);
        }
        MaskedRowZero(w, bh, bv, thr, k - 1, |bv|);
      }
    }
  }

  /** When every column but j0 holds the zero vector in row i and j0 passes
      the filter, row i's masked sum is w[i][j0] once the prefix reaches j0. */
  lemma {:induction false} MaskedRowSingle(w: seq<seq<Vec3>>, bh: seq<real>, bv: seq<real>,
                                            thr: real, i: nat, j0: nat, l: nat)
    requires Shaped(w, bh, bv) && i < |bh| && j0 < |bv| && l <= |bv|
    requires thr <= bv[j0] && forall j :: 0 <= j < |bv| && j != j0 ==> w[i][j] == Zero
    ensures MaskedRow(w, bh, bv, thr, i, l) == if j0 < l then w[i][j0] else Zero
  {
    if l > 0 {
      MaskedRowSingle(w, bh, bv, thr, i, j0, l - 1);
    }
  }

  /** When every row but i0 holds only zero vectors and i0 passes the
      filter, the masked sum over the first k rows is row i0's masked sum
      once k passes i0. */
  lemma {:induction false} MaskedGridSingle(w: seq<seq<Vec3>>, bh: seq<real>, bv: seq<real>,
                                             thr: real, i0: nat, k: nat)
    requires Shaped(w, bh, bv) && i0 < |bh| && k <= |bh|
    requires thr <= bh[i0]
    requires forall i, j :: 0 <= i < |bh| && i != i0 && 0 <= j < |bv| ==> w[i][j] == Zero
    ensures MaskedGrid(w, bh, bv, thr, k) == if i0 < k then MaskedRow(w, bh, bv, thr, i0, |bv|) else Zero
  {
    if k > 0 {
      MaskedGridSingle(w, bh, bv, thr, i0, k - 1);
      if k - 1 != i0 {
        MaskedRowZero(w, bh, bv, thr, k - 1, |bv|);
      }
    }
  }

  /** With weights vanishing everywhere except at row i0 and column j0, both
      of which pass the filter, the masked weighted sum is the single
      weighted control point (i0, j0). */
  lemma SingleWeight(g: seq<seq<Vec3>>, bh: seq<real>, bv: seq<real>, thr: real, i0: nat, j0: nat)
    requires Shaped(g, bh, bv) && i0 < |bh| && j0 < |bv|
    requires thr <= bh[i0] && forall i :: 0 <= i < |bh| && i != i0 ==> bh[i] == 0.0
    requires thr <= bv[j0] && forall j :: 0 <= j < |bv| && j != j0 ==> bv[j] == 0.0
    ensures MaskedGrid(Weighted(g, bh, bv), bh, bv, thr, |bh|) == Scale(g[i0][j0], bh[i0] * bv[j0])
  {
    var w := Weighted(g, bh, bv);
    forall i, j | 0 <= i < |bh| && i != i0 && 0 <= j < |bv|
      ensures w[i][j] == Zero
    {
      WeightedZero(g, bh, bv, i, j);
    }
    forall j | 0 <= j < |bv| && j != j0
      ensures w[i0][j] == Zero
    {
      WeightedZero(g, bh, bv, i0, j);
    }
    MaskedGridSingle(w, bh, bv, thr, i0, |bh|);
    MaskedRowSingle(w, bh, bv, thr, i0, j0, |bv|);
    WeightedEntry(g, bh, bv, i0, j0);
  }

  /** The sum over j < l of w * bv[j]. */
  function RowWeight(w: real, bv: seq<real>, l: nat): (r: real)
    requires l <= |bv|
  {
    if l == 0 then 0.0 else RowWeight(w, bv, l - 1) + w * bv[l - 1]
  }

  /** The sum over i < k and all j of bh[i] * bv[j]. */
  function GridWeight(bh: seq<real>, bv: seq<real>, k: nat): (r: real)
    requires k <= |bh|
  {
    if k == 0 then 0.0 else GridWeight(bh, bv, k - 1) + RowWeight(bh[k - 1], bv, |bv|)
  }

  /** A row's weights factor as w times the column total. */
  lemma {:induction false} RowWeightFactors(w: real, bv: seq<real>, l: nat)
    requires l <= |bv|
    ensures RowWeight(w, bv, l) == w * Total(bv, l)
  {
    if l > 0 {
      RowWeightFactors(w, bv, l - 1);
      assert w * Total(bv, l - 1) + w * bv[l - 1] == w * (Total(bv, l - 1) + bv[l - 1]);
    }
  }

  /** The grid's weights factor as the product of the two totals. */
  lemma {:induction false} GridWeightFactors(bh: seq<real>, bv: seq<real>, k: nat)
    requires k <= |bh|
    ensures GridWeight(bh, bv, k) == Total(bh, k) * Total(bv, |bv|)
  {
    if k > 0 {
      GridWeightFactors(bh, bv, k - 1);
      RowWeightFactors(bh[k - 1], bv, |bv|);
      var s, w, tv := Total(bh, k - 1), bh[k - 1], Total(bv, |bv|);
      assert s * tv + w * tv == (s + w) * tv;
    }
  }

  /** Scaling distributes over a sum of scalars. */
  lemma ScaleDistributes(c: Vec3, p: real, q: real, s: real)
    requires s == p + q
    ensures Add(Scale(c, p), Scale(c, q)) == Scale(c, s)
  {
    assert c.x * p + c.x * q == c.x * (p + q);
    assert c.y * p + c.y * q == c.y * (p + q);
    assert c.z * p + c.z * q == c.z * (p + q);
  }

  /** With every control point of row i equal to c, the weighted row sum is
      c scaled by the row's weights. */
  lemma {:induction false} FullRowConstant(g: seq<seq<Vec3>>, bh: seq<real>, bv: seq<real>,
                                            c: Vec3, i: nat, l: nat)
    requires Shaped(g, bh, bv) && i < |bh| && l <= |bv|
    requires forall j :: 0 <= j < |bv| ==> g[i][j] == c
    ensures FullRow(Weighted(g, bh, bv), bh, bv, i, l) == Scale(c, RowWeight(bh[i], bv, l))
  {
    if l > 0 {
      var w := Weighted(g, bh, bv);
      FullRowConstant(g, bh, bv, c, i, l - 1);
      WeightedEntry(g, bh, bv, i, l - 1);
      assert w[i][l - 1] == Scale(c, bh[i] * bv[l - 1]);
      assert FullRow(w, bh, bv, i, l) == Add(FullRow(w, bh, bv, i, l - 1), w[i][l - 1]);
      ScaleDistributes(c, RowWeight(bh[i], bv, l - 1), bh[i] * bv[l - 1], RowWeight(bh[i], bv, l));
    }
  }

  /** With every control point equal to c, the full weighted sum over the
      first k rows is c scaled by their weights. */
  lemma {:induction false} FullGridConstant(g: seq<seq<Vec3>>, bh: seq<real>, bv: seq<real>,
                                             c: Vec3, k: nat)
    requires Shaped(g, bh, bv) && k <= |bh|
    requires forall i, j :: 0 <= i < |bh| && 0 <= j < |bv| ==> g[i][j] == c
    ensures FullGrid(Weighted(g, bh, bv), bh, bv, k) == Scale(c, GridWeight(bh, bv, k))
  {
    if k > 0 {
      FullGridConstant(g, bh, bv, c, k - 1);
      FullRowConstant(g, bh, bv, c, k - 1, |bv|);
      ScaleDistributes(c, GridWeight(bh, bv, k - 1), RowWeight(bh[k - 1], bv, |bv|), GridWeight(bh, bv, k));
    }
  }
}
