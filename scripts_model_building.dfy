/** The protbind_model class of scripts/model_building.py: a one- or two-site
    binding model fitted by a fixed grid of L-BFGS-B starts, with the two-site
    free concentration found by root_eater.cpp's `single_pos_special_cubic`
    and the parameter errors taken from the inverse Hessian. Parameters live in
    a 4-slot vector addressed through `param_ids`. */
module ScriptsModelBuilding {
  import opened Numerics
  import opened Polynomial
  import opened Binding
  import opened Residuals
  import opened MultiStart
  import RootEaterCpp
  import opened DataTable

  /** What `calc_error` returns when the covariance matrix has a negative entry. */
  const IllPosedMessage: string := "There was an error inverting the Hessian; the problem is likely ill-posed.Try using a less flexible model with fewer free-to-vary parameters."

  // ---------------------------------------------------------------------------
  // Parameter slots

  /** The keys 'kd1', 'p1', 'kd2', 'p2' of the parameter dictionaries. */
  datatype ParamName = Kd1 | P1 | Kd2 | P2

  /** `param_ids` */
  const ParamIds: map<ParamName, nat> := map[Kd1 := 0, P1 := 1, Kd2 := 2, P2 := 3]

  /** `model_associated_params`, in the order the start vectors and bounds use. */
  const ModelAssociatedParams: map<int, seq<ParamName>> := map[0 := [Kd1, P1], 1 := [Kd1, P1, Kd2, P2]]

  predicate KnownModel(modelType: int) {
    modelType == 0 || modelType == 1
  }

  /** How many parameters the model fits: 2 for one site, 4 for two. */
  function ParamCount(modelType: int): (k: nat)
    requires KnownModel(modelType)
    ensures k == 2 * (modelType + 1)
  {
    NamesCount(modelType);
    |ModelAssociatedParams[modelType]|
  }

  lemma NamesCount(modelType: int)
    requires KnownModel(modelType)
    ensures |ModelAssociatedParams[modelType]| == 2 * (modelType + 1)
  {
  }

  /** Every associated parameter has a slot of the 4-vector. */
  lemma NamesHaveSlots(modelType: int)
    requires KnownModel(modelType)
    ensures forall j :: 0 <= j < |ModelAssociatedParams[modelType]| ==>
      ModelAssociatedParams[modelType][j] in ParamIds && ParamIds[ModelAssociatedParams[modelType][j]] < 4
  {
  }

  /** `self.params` after the placement loop over the first j associated
      names, starting from the zero vector `grid_search` resets it to. */
  function Placed(best: seq<real>, modelType: int, j: nat): (p: seq<real>)
    requires KnownModel(modelType) && j <= ParamCount(modelType) && j <= |best|
    ensures |p| == 4
  {
    if j == 0 then Zeros(4)
    else Placed(best, modelType, j - 1)[SlotOf(modelType, j - 1) := best[j - 1]]
  }

  /** `self.param_ids[current_param]` for the j-th associated parameter. */
  function SlotOf(modelType: int, j: nat): (slot: nat)
    requires KnownModel(modelType) && j < ParamCount(modelType)
    ensures slot < 4
  {
    NamesCount(modelType);
    NamesHaveSlots(modelType);
    ParamIds[ModelAssociatedParams[modelType][j]]
  }

  /** kd1 -> 0, p1 -> 1, kd2 -> 2, p2 -> 3: either model's j-th parameter goes to slot j. */
  lemma SlotIsPosition(modelType: int, j: nat)
    requires KnownModel(modelType) && j < ParamCount(modelType)
    ensures SlotOf(modelType, j) == j
  {
  }

  /** After j steps of the placement loop slots 0..j-1 hold the first j
      winners and the other slots are still zero. */
  lemma {:induction false} PlacedPrefix(best: seq<real>, modelType: int, j: nat)
    requires KnownModel(modelType) && j <= ParamCount(modelType) && j <= |best|
    ensures forall i :: 0 <= i < 4 ==> Placed(best, modelType, j)[i] == if i < j then best[i] else 0.0
    decreases j
  {
    if j > 0 {
      PlacedPrefix(best, modelType, j - 1);
      SlotIsPosition(modelType, j - 1);
    }
  }

  // ---------------------------------------------------------------------------
  // twobind: the coefficient buffer and the C++ root selection

  /** The cubic of one total, reading kd1, kd2, p1, p2 from their
      `param_ids` slots 0, 2, 1, 3. */
  function CubicAt(params: seq<real>, x: real): seq<real>
    requires |params| >= 4
  {
    AscendingCubic(params[0], params[2], params[1], params[3], x)
  }

  /** The row-major N x 4 `coefficients` array `twobind` passes to
      `single_pos_special_cubic`. */
  function CoefficientBuffer(x: seq<real>, params: seq<real>): (buf: seq<real>)
    requires |params| >= 4
    ensures |buf| == |x| * 4
  {
    seq(|x| * 4, p requires 0 <= p < |x| * 4 => CubicAt(params, x[p / 4])[p % 4])
  }

  /** Each row of the buffer is [d, c, b, 1.0] in ascending degree, so the
      C routine's assumption of a leading coefficient of 1 always holds. */
  lemma CoefficientRows(x: seq<real>, params: seq<real>, i: nat)
    requires |params| >= 4 && i < |x|
    ensures RootEaterCpp.RowsOf(CoefficientBuffer(x, params), |x|, 4)[i] == CubicAt(params, x[i])
    ensures RootEaterCpp.RowsOf(CoefficientBuffer(x, params), |x|, 4)[i][3] == 1.0
  {
    var buf := CoefficientBuffer(x, params);
    var row := RootEaterCpp.RowsOf(buf, |x|, 4)[i];
    forall k | 0 <= k < 4
      ensures row[k] == CubicAt(params, x[i])[k]
    {
      RootEaterCpp.RowEntry(buf, |x|, 4, i, k);
      assert (i * 4 + k) / 4 == i && (i * 4 + k) % 4 == k;
    }
  }

  /** One column assignment `coefficients[:, col] = values` on the row-major buffer. */
  function WithColumn(s: seq<real>, col: nat, values: seq<real>): (r: seq<real>)
    requires |s| == 4 * |values| && col < 4
    ensures |r| == |s|
  {
    seq(|s|, p requires 0 <= p < |s| => if p % 4 == col then values[p / 4] else s[p])
  }

  method SetColumn(a: array<real>, col: nat, values: seq<real>)
    requires a.Length == 4 * |values| && col < 4
    modifies a
    ensures a[..] == WithColumn(old(a[..]), col, values)
  {
    ghost var before := a[..];
    var i := 0;
    while i < |values|
      invariant 0 <= i <= |values|
      invariant forall p :: 0 <= p < a.Length ==> a[p] == (if p % 4 == col && p / 4 < i then values[p / 4] else before[p])
    {
      a[4 * i + col] := values[i];
      i := i + 1;
    }
  }

  function ColumnB(x: seq<real>, params: seq<real>): (v: seq<real>)
    requires |params| >= 4
    ensures |v| == |x|
  {
    seq(|x|, i requires 0 <= i < |x| => CubicB(params[0], params[2], params[1], params[3], x[i]))
  }

  function ColumnC(x: seq<real>, params: seq<real>): (v: seq<real>)
    requires |params| >= 4
    ensures |v| == |x|
  {
    seq(|x|, i requires 0 <= i < |x| => CubicC(params[0], params[2], params[1], params[3], x[i]))
  }

  function ColumnD(x: seq<real>, params: seq<real>): (v: seq<real>)
    requires |params| >= 4
    ensures |v| == |x|
  {
    seq(|x|, i requires 0 <= i < |x| => CubicD(params[0], params[2], params[1], params[3], x[i]))
  }

  /** The four column assignments of `twobind`, last column first, build the buffer. */
  lemma ColumnsBuildBuffer(x: seq<real>, params: seq<real>)
    requires |params| >= 4
    ensures WithColumn(WithColumn(WithColumn(WithColumn(seq(|x| * 4, _ => 0.0), 3, seq(|x|, _ => 1.0)),
              2, ColumnB(x, params)), 1, ColumnC(x, params)), 0, ColumnD(x, params))
            == CoefficientBuffer(x, params)
  {
  }

  /** The C++ routine's answer per total: the real part of the selected
      eigenvalue of each row's companion matrix. */
  function TwoBindValues(lib: Library, x: seq<real>, params: seq<real>): (ys: seq<real>)
    requires |params| >= 4 && OneEigenvaluePerRow(lib.eigenvalues)
    ensures |ys| == |x|
  {
    RootEaterCpp.SpecialRootListsLength(lib, CoefficientBuffer(x, params), |x|, 4, 3);
    RootEaterCpp.Selected(RootEaterCpp.SpecialRootLists(lib, CoefficientBuffer(x, params), |x|, 4, 3), 3)
  }

  /** `twobind`: fill the coefficient columns, then let the C++ routine write
      `predicted` in place. */
  method TwoBind(lib: Library, x: seq<real>, params: seq<real>) returns (predicted: seq<real>)
    requires |params| >= 4 && OneEigenvaluePerRow(lib.eigenvalues)
    ensures predicted == TwoBindValues(lib, x, params)
  {
    var n := |x|;
    var coefficients := new real[n * 4](_ => 0.0);
    assert coefficients[..] == seq(n * 4, _ => 0.0);
    SetColumn(coefficients, 3, seq(n, _ => 1.0));
    SetColumn(coefficients, 2, ColumnB(x, params));
    SetColumn(coefficients, 1, ColumnC(x, params));
    SetColumn(coefficients, 0, ColumnD(x, params));
    ColumnsBuildBuffer(x, params);
    var out := new real[n](_ => 0.0);
    RootEaterCpp.SinglePosSpecialCubic(lib, coefficients, n, 4, out);
    predicted := out[..n];
  }

  /** Eigen's real eigenvalues are eigenvalues of the matrix it was given. */
  ghost predicate RealEigenvaluesSound(eigenvalues: seq<seq<real>> -> seq<Complex>) {
    forall m: seq<seq<real>>, j: int {:trigger eigenvalues(m)[j]} ::
      (forall r :: 0 <= r < |m| ==> |m[r]| == |m|) && 0 <= j < |eigenvalues(m)| && eigenvalues(m)[j].im == 0.0
      ==> IsEigenvalue(m, eigenvalues(m)[j].re)
  }

  /** When the eigenvalue the C++ routine selects for a total is a
      non-negative real number, that prediction is a free concentration
      satisfying the two-site mass balance at that total. */
  lemma TwoBindSolvesMassBalance(lib: Library, x: seq<real>, params: seq<real>, i: nat)
    requires |params| >= 4 && i < |x| && params[0] > 0.0 && params[2] > 0.0
    requires OneEigenvaluePerRow(lib.eigenvalues) && RealEigenvaluesSound(lib.eigenvalues)
    requires var evs := RootEaterCpp.SpecialRootLists(lib, CoefficientBuffer(x, params), |x|, 4, 3);
             RootEaterCpp.AllOfLength(evs, 3)
             && evs[i][RootEaterCpp.Carried(evs[..i + 1], 3)].im == 0.0
             && evs[i][RootEaterCpp.Carried(evs[..i + 1], 3)].re >= 0.0
    ensures TwoBindValues(lib, x, params)[i] >= 0.0
    ensures x[i] == TwoSiteTotal(params[0], params[2], params[1], params[3], TwoBindValues(lib, x, params)[i])
  {
    var evs := RootEaterCpp.SpecialRootLists(lib, CoefficientBuffer(x, params), |x|, 4, 3);
    RootEaterCpp.SelectedAt(evs, 3, i);
    var row := CubicAt(params, x[i]);
    CoefficientRows(x, params, i);
    var y := TwoBindValues(lib, x, params)[i];
    var j := RootEaterCpp.Carried(evs[..i + 1], 3);
    assert evs[i] == lib.eigenvalues(Companion(row, 3, false));
    SpecialCompanionIsMonicCompanion(row, 3);
    assert IsEigenvalue(Companion(row, 3, false), evs[i][j].re);
    CompanionEigenvaluesAreRoots(row, 3, y);
    CubicRootIsMassBalance(params[0], params[2], params[1], params[3], x[i], y);
  }

  // ---------------------------------------------------------------------------
  // The objective of the fit

  /** `onebind` or `twobind` of the 4-vector, for one or two sites. */
  function Predictions(lib: Library, sites: nat, x: seq<real>, params: seq<real>): (ys: seq<real>)
    requires (sites == 1 || sites == 2) && |params| >= 2 * sites && OneEigenvaluePerRow(lib.eigenvalues)
    ensures |ys| == |x|
  {
    if sites == 1 then OneBindAll(lib, x, params) else TwoBindValues(lib, x, params)
  }

  predicate WellFormed(o: Objective) {
    o.weighting == DividedSquares && (o.sites == 1 || o.sites == 2) && |o.actual| == |o.x|
    && (1 <= o.weightType <= 3 ==> NonZero(o.x))
  }

  /** `onebind_resid` / `twobind_resid` at a parameter vector. */
  function Cost(lib: Library, o: Objective, params: seq<real>): Option<real>
    requires WellFormed(o) && |params| >= 2 * o.sites && OneEigenvaluePerRow(lib.eigenvalues)
  {
    DividedResidual(Predictions(lib, o.sites, o.x, params), o.actual, o.x, o.weightType)
  }

  /** scipy reports in `fun` the objective's value at the point `x` it returns. */
  ghost predicate ReportsCost(lib: Library, o: Objective)
    requires WellFormed(o) && OneEigenvaluePerRow(lib.eigenvalues)
  {
    forall x0, b {:trigger lib.minimize(o, x0, b)} ::
      lib.minimize(o, x0, b).success && |lib.minimize(o, x0, b).x| >= 2 * o.sites
      ==> Cost(lib, o, lib.minimize(o, x0, b).x) == Some(lib.minimize(o, x0, b).fun)
  }

  // ---------------------------------------------------------------------------
  // grid_search

  const Kd1Values: seq<real> := [1.0, 10.0, 100.0]
  const OneSiteP1Values: seq<real> := [5.0, 50.0, 500.0]
  const TwoSiteP1Values: seq<real> := [1.0, 10.0, 100.0]
  const Kd2Values: seq<real> := [10.0, 100.0, 1000.0]
  const P2Values: seq<real> := [10.0, 100.0, 1000.0]

  /** ParameterGrid over the sorted keys, the last key varying fastest, each
      point read out in `model_associated_params` order. */
  function StartGrid(modelType: int): (starts: seq<seq<real>>)
    requires KnownModel(modelType)
    ensures forall j :: 0 <= j < |starts| ==> |starts[j]| == ParamCount(modelType)
  {
    if modelType == 0 then
      seq(9, j requires 0 <= j < 9 => [Kd1Values[j / 3], OneSiteP1Values[j % 3]])
    else
      seq(81, j requires 0 <= j < 81 => [Kd1Values[j / 27], TwoSiteP1Values[(j / 3) % 3], Kd2Values[(j / 9) % 3], P2Values[j % 3]])
  }

  /** The grid is the full product: 3 x 3 = 9 starts for one site, 3^4 = 81
      for two, every combination exactly at its ParameterGrid position. */
  lemma StartGridOneSite()
    ensures |StartGrid(0)| == 9
    ensures forall a, b :: 0 <= a < 3 && 0 <= b < 3 ==> StartGrid(0)[3 * a + b] == [Kd1Values[a], OneSiteP1Values[b]]
  {
    forall a, b | 0 <= a < 3 && 0 <= b < 3
      ensures StartGrid(0)[3 * a + b] == [Kd1Values[a], OneSiteP1Values[b]]
    {
      var j := 3 * a + b;
      assert j / 3 == a && j % 3 == b;
    }
  }

  lemma StartGridTwoSite()
    ensures |StartGrid(1)| == 81
    ensures forall a, b, c, d :: 0 <= a < 3 && 0 <= b < 3 && 0 <= c < 3 && 0 <= d < 3 ==>
      StartGrid(1)[27 * a + 9 * c + 3 * b + d] == [Kd1Values[a], TwoSiteP1Values[b], Kd2Values[c], P2Values[d]]
  {
    forall a, b, c, d | 0 <= a < 3 && 0 <= b < 3 && 0 <= c < 3 && 0 <= d < 3
      ensures StartGrid(1)[27 * a + 9 * c + 3 * b + d] == [Kd1Values[a], TwoSiteP1Values[b], Kd2Values[c], P2Values[d]]
    {
      GridDigits(a, b, c, d);
    }
  }

  lemma GridDigits(a: nat, b: nat, c: nat, d: nat)
    requires a < 3 && b < 3 && c < 3 && d < 3
    ensures (27 * a + 9 * c + 3 * b + d) / 27 == a
    ensures ((27 * a + 9 * c + 3 * b + d) / 3) % 3 == b
    ensures ((27 * a + 9 * c + 3 * b + d) / 9) % 3 == c
    ensures (27 * a + 9 * c + 3 * b + d) % 3 == d
  {
    var j := 27 * a + 9 * c + 3 * b + d;
    assert j / 3 == 9 * a + 3 * c + b;
    assert j / 9 == 3 * a + c;
  }

  const LowerBound: real := 0.0000000001

  /** Every start point lies inside the bounds. */
  lemma StartsWithinBounds(modelType: int)
    requires KnownModel(modelType)
    ensures forall j, i :: 0 <= j < |StartGrid(modelType)| && 0 <= i < ParamCount(modelType) ==>
      StartGrid(modelType)[j][i] >= LowerBounds(ParamCount(modelType), LowerBound)[i].lo
  {
    forall j, i | 0 <= j < |StartGrid(modelType)| && 0 <= i < ParamCount(modelType)
      ensures StartGrid(modelType)[j][i] >= LowerBound
    {
      StartAboveBound(modelType, j, i);
    }
  }

  lemma StartAboveBound(modelType: int, j: nat, i: nat)
    requires KnownModel(modelType) && j < |StartGrid(modelType)| && i < ParamCount(modelType)
    ensures StartGrid(modelType)[j][i] >= LowerBound
  {
    if modelType == 0 {
      OneSiteStartAboveBound(j, i);
    } else {
      TwoSiteStartAboveBound(j, i);
    }
  }

  lemma OneSiteStartAboveBound(j: nat, i: nat)
    requires j < 9 && i < 2
    ensures StartGrid(0)[j][i] >= LowerBound
  {
    GridValuesAboveBound();
    assert StartGrid(0)[j] == [Kd1Values[j / 3], OneSiteP1Values[j % 3]];
  }

  lemma TwoSiteStartAboveBound(j: nat, i: nat)
    requires j < 81 && i < 4
    ensures StartGrid(1)[j][i] >= LowerBound
  {
    GridValuesAboveBound();
    assert j / 27 < 3;
    assert StartGrid(1)[j] == [Kd1Values[j / 27], TwoSiteP1Values[(j / 3) % 3], Kd2Values[(j / 9) % 3], P2Values[j % 3]];
  }

  /** Every grid value lies above the L-BFGS-B lower bound. */
  lemma GridValuesAboveBound()
    ensures forall t :: 0 <= t < 3 ==> Kd1Values[t] >= LowerBound && OneSiteP1Values[t] >= LowerBound
    ensures forall t :: 0 <= t < 3 ==> TwoSiteP1Values[t] >= LowerBound && Kd2Values[t] >= LowerBound && P2Values[t] >= LowerBound
  {
  }

  function GridObjective(modelType: int, weightType: int, x: seq<real>, y: seq<real>): Objective
    requires KnownModel(modelType)
  {
    Objective(DividedSquares, (modelType + 1) as nat, weightType, x, y)
  }

  function GridRuns(lib: Library, modelType: int, weightType: int, x: seq<real>, y: seq<real>): (runs: seq<Run>)
    requires KnownModel(modelType)
    ensures |runs| == |StartGrid(modelType)|
  {
    Runs(lib, GridObjective(modelType, weightType, x, y), StartGrid(modelType), LowerBounds(ParamCount(modelType), LowerBound))
  }

  /** `best_params` after the loop. */
  function GridWinner(lib: Library, modelType: int, weightType: int, x: seq<real>, y: seq<real>): seq<real>
    requires KnownModel(modelType)
  {
    Track(GridRuns(lib, modelType, weightType, x, y), FirstSuccess, ParamCount(modelType)).params
  }

  lemma GridWinnerLength(lib: Library, modelType: int, weightType: int, x: seq<real>, y: seq<real>)
    requires KnownModel(modelType) && KeepsDimension(lib.minimize)
    ensures |GridWinner(lib, modelType, weightType, x, y)| == ParamCount(modelType)
  {
    var k := ParamCount(modelType);
    RunsKeepDimension(lib, GridObjective(modelType, weightType, x, y), StartGrid(modelType), LowerBounds(k, LowerBound), k);
    TrackLength(GridRuns(lib, modelType, weightType, x, y), FirstSuccess, k);
  }

  /** `self.params` at the end of `grid_search`. */
  function GridPlacement(lib: Library, modelType: int, weightType: int, x: seq<real>, y: seq<real>): (p: seq<real>)
    requires KnownModel(modelType) && KeepsDimension(lib.minimize)
    ensures |p| == 4
  {
    GridWinnerLength(lib, modelType, weightType, x, y);
    Placed(GridWinner(lib, modelType, weightType, x, y), modelType, ParamCount(modelType))
  }

  /** With every total positive and scipy reporting the objective's value,
      the grid search keeps the earliest start among the successful runs of
      lowest cost: unsuccessful runs never count, ties keep the first. */
  lemma GridSearchKeepsEarliestMinimum(lib: Library, modelType: int, weightType: int, x: seq<real>, y: seq<real>)
    requires KnownModel(modelType) && 0 <= weightType <= 3 && |x| == |y| && Positive(x)
    requires OneEigenvaluePerRow(lib.eigenvalues) && KeepsDimension(lib.minimize)
    requires ReportsCost(lib, GridObjective(modelType, weightType, x, y))
    requires exists j :: 0 <= j < |GridRuns(lib, modelType, weightType, x, y)| && GridRuns(lib, modelType, weightType, x, y)[j].success
    ensures exists i: nat :: (EarliestMinimum(GridRuns(lib, modelType, weightType, x, y), FirstSuccess, i)
      && GridWinner(lib, modelType, weightType, x, y) == GridRuns(lib, modelType, weightType, x, y)[i].x)
  {
    var o := GridObjective(modelType, weightType, x, y);
    var k := ParamCount(modelType);
    var runs := GridRuns(lib, modelType, weightType, x, y);
    RunsKeepDimension(lib, o, StartGrid(modelType), LowerBounds(k, LowerBound), k);
    forall j | 0 <= j < |runs| && runs[j].success
      ensures runs[j].fun >= 0.0
    {
      assert runs[j] == lib.minimize(o, StartGrid(modelType)[j], LowerBounds(k, LowerBound));
      DividedResidualNonNegative(Predictions(lib, o.sites, x, runs[j].x), y, x, weightType);
    }
    TrackFindsEarliestMinimum(runs, FirstSuccess, k);
  }

  /** When no run succeeds `best_params` stays the zero vector, and so does
      every slot of `self.params`. */
  lemma GridSearchNoSuccess(lib: Library, modelType: int, weightType: int, x: seq<real>, y: seq<real>)
    requires KnownModel(modelType)
    requires forall j :: 0 <= j < |GridRuns(lib, modelType, weightType, x, y)| ==> !GridRuns(lib, modelType, weightType, x, y)[j].success
    ensures GridWinner(lib, modelType, weightType, x, y) == Zeros(ParamCount(modelType))
    ensures Placed(GridWinner(lib, modelType, weightType, x, y), modelType, ParamCount(modelType)) == Zeros(4)
  {
    TrackNoneEligible(GridRuns(lib, modelType, weightType, x, y), FirstSuccess, ParamCount(modelType));
    var k := ParamCount(modelType);
    PlacedPrefix(Zeros(k), modelType, k);
    assert Placed(Zeros(k), modelType, k) == Zeros(4);
  }

  // ---------------------------------------------------------------------------
  // make_preds

  /** What `make_preds` hands back: the predictions with the code '0', the
      `(0, 'err')` pair of a model that has not been fitted, or the implicit
      None of a fitted model whose type is neither 0 nor 1. */
  datatype Preds = Predicted(values: seq<real>, code: string) | NotFitted | NothingReturned

  /** The predictions of a known model at the totals `xs`: `onebind` on the
      first two slots, or `twobind` on the whole vector. */
  function FitPredictions(lib: Library, modelType: int, xs: seq<real>, params: seq<real>): (ys: seq<real>)
    requires KnownModel(modelType) && |params| == 4 && OneEigenvaluePerRow(lib.eigenvalues)
    ensures |ys| == |xs|
  {
    if modelType == 0 then OneBindAll(lib, xs, params[..2]) else TwoBindValues(lib, xs, params)
  }

  /** With a positive kd, a non-negative p1 and non-negative totals, every
      one-site prediction of `make_preds` is a free concentration between 0
      and the total that satisfies the one-site mass balance
      x = y + p1*y/(kd1 + y). */
  lemma OneSitePredictionsSolveMassBalance(lib: Library, xs: seq<real>, params: seq<real>, i: nat)
    requires |params| == 4 && params[0] > 0.0 && params[1] >= 0.0 && i < |xs| && xs[i] >= 0.0
    requires OneEigenvaluePerRow(lib.eigenvalues) && SqrtSound(lib.sqrt)
    ensures 0.0 <= FitPredictions(lib, 0, xs, params)[i] <= xs[i]
    ensures var y := FitPredictions(lib, 0, xs, params)[i];
            xs[i] == y + params[1] * y / (params[0] + y)
  {
    var front := params[..2];
    assert front[0] == params[0] && front[1] == params[1];
    assert FitPredictions(lib, 0, xs, params) == OneBindAll(lib, xs, front);
    OneBindAllSolvesMassBalance(lib, xs, front, i);
  }

  // ---------------------------------------------------------------------------
  // calc_error

  /** `np.min(cov_mat) < 0` */
  predicate HasNegativeEntry(cov: seq<seq<real>>) {
    exists i, j :: 0 <= i < |cov| && 0 <= j < |cov[i]| && cov[i][j] < 0.0
  }

  /** The corrected AIC: the residual plus 2k plus the small-sample term
      2k(k+1)/(N-k-1), an int/int true division in Python. */
  function Aic(net: real, k: nat, n: nat): real
    requires n - k - 1 != 0
  {
    net + (2 * k) as real + ((2 * k * (k + 1)) as real) / ((n - k - 1) as real)
  }

  /** `param_errors` after the loop: the first k slots become
      sqrt(net/dof * cov[i][i]), the others keep their values. */
  function ErrorsWritten(lib: Library, prior: seq<real>, net: real, dof: int, cov: seq<seq<real>>, k: nat): (e: seq<real>)
    requires |prior| == 4 && k <= 4 && |cov| == k && forall i :: 0 <= i < k ==> |cov[i]| == k
    ensures |e| == 4
  {
    seq(4, i requires 0 <= i < 4 => if i < k then StandardError(lib, net, dof, cov[i][i]) else prior[i])
  }

  /** `np.sqrt((net_residuals / degrees_of_freedom) * cov_mat[i,i])` */
  function StandardError(lib: Library, net: real, dof: int, variance: real): real {
    lib.sqrt(lib.quotient(net, dof) * variance)
  }

  /** The outcome of `calc_error` and the new `param_errors` and `AIC`. */
  datatype ErrorReport = ErrorReport(outcome: Outcome, paramErrors: seq<real>, aic: real)

  /** `calc_error` on the fitted 4-vector `params`. It raises for an unknown
      model (the KeyError of `model_associated_params`), for a weight type the
      residual functions do not know (they return None), when the Hessian
      cannot be inverted, and, after the errors are written, when N = k + 1
      makes the AIC's integer division divide by zero. It rejects a covariance
      matrix with a negative entry without writing anything. */
  function CalcErrorSpec(lib: Library, modelType: int, weightType: int, x: seq<real>, y: seq<real>,
                         params: seq<real>, paramErrors: seq<real>, aic: real): (r: ErrorReport)
    requires |x| == |y| && (1 <= weightType <= 3 ==> NonZero(x)) && |params| == 4 && |paramErrors| == 4
    requires OneEigenvaluePerRow(lib.eigenvalues) && SquareInverse(lib.inverseHessian)
    ensures |r.paramErrors| == 4
  {
    if !KnownModel(modelType) then ErrorReport(Raised, paramErrors, aic)
    else
      var o := GridObjective(modelType, weightType, x, y);
      var k := ParamCount(modelType);
      CheckedReport(lib, paramErrors, aic, Cost(lib, o, params), lib.inverseHessian(o, params[..k]), |x|, k)
  }

  /** The rest of `calc_error` once the residual and the inverse Hessian at
      the k fitted parameters of n points are known (None where they raise). */
  function CheckedReport(lib: Library, paramErrors: seq<real>, aic: real, net: Option<real>,
                         cov: Option<seq<seq<real>>>, n: nat, k: nat): (r: ErrorReport)
    requires |paramErrors| == 4 && k <= 4
    requires cov.Some? ==> |cov.value| == k && forall i :: 0 <= i < k ==> |cov.value[i]| == k
    ensures |r.paramErrors| == 4
  {
    if net.None? || cov.None? then ErrorReport(Raised, paramErrors, aic)
    else if HasNegativeEntry(cov.value) then ErrorReport(Code(IllPosedMessage), paramErrors, aic)
    else
      var errors := ErrorsWritten(lib, paramErrors, net.value, n - k, cov.value, k);
      if n - k - 1 == 0 then ErrorReport(Raised, errors, aic)
      else ErrorReport(Code("0"), errors, Aic(net.value, k, n))
  }

  /** The rejection rule: once the residual and the inverse exist, the
      ill-posed message comes back exactly when some covariance entry is
      negative, and then neither the errors nor the AIC change. */
  lemma CalcErrorRejectsNegativeCovariance(lib: Library, modelType: int, weightType: int, x: seq<real>, y: seq<real>,
                                           params: seq<real>, paramErrors: seq<real>, aic: real)
    requires |x| == |y| && (1 <= weightType <= 3 ==> NonZero(x)) && |params| == 4 && |paramErrors| == 4
    requires OneEigenvaluePerRow(lib.eigenvalues) && SquareInverse(lib.inverseHessian)
    requires KnownModel(modelType) && 0 <= weightType <= 3
    requires lib.inverseHessian(GridObjective(modelType, weightType, x, y), params[..ParamCount(modelType)]).Some?
    ensures var r := CalcErrorSpec(lib, modelType, weightType, x, y, params, paramErrors, aic);
            var cov := lib.inverseHessian(GridObjective(modelType, weightType, x, y), params[..ParamCount(modelType)]).value;
            (r.outcome == Code(IllPosedMessage) <==> HasNegativeEntry(cov))
            && (r.outcome == Code(IllPosedMessage) ==> r.paramErrors == paramErrors && r.aic == aic)
  {
    assert IllPosedMessage != "0" by { assert |IllPosedMessage| != |"0"|; }
  }

  /** The data are positive, a known model and weight type were fitted, and
      the inverse Hessian at the fitted parameters exists and has no
      negative entry: the case in which `calc_error` writes the errors. */
  ghost predicate CovarianceAccepted(lib: Library, modelType: int, weightType: int, x: seq<real>, y: seq<real>,
                                     params: seq<real>)
  {
    |x| == |y| && Positive(x) && |params| == 4
    && OneEigenvaluePerRow(lib.eigenvalues) && SquareInverse(lib.inverseHessian)
    && KnownModel(modelType) && 0 <= weightType <= 3
    && lib.inverseHessian(GridObjective(modelType, weightType, x, y), params[..ParamCount(modelType)]).Some?
    && !HasNegativeEntry(lib.inverseHessian(GridObjective(modelType, weightType, x, y), params[..ParamCount(modelType)]).value)
  }

  /** On an accepted covariance matrix with more points than parameters,
      every written error is the non-negative square root of
      net_residuals / dof * cov[i][i]: the rejection rule leaves np.sqrt only
      non-negative arguments. */
  lemma AcceptedErrorsAreStandardErrors(lib: Library, modelType: int, weightType: int, x: seq<real>, y: seq<real>,
                                        params: seq<real>, paramErrors: seq<real>, aic: real, i: nat)
    requires CovarianceAccepted(lib, modelType, weightType, x, y, params) && |paramErrors| == 4
    requires ExactQuotient(lib.quotient) && SqrtSound(lib.sqrt)
    requires |x| > ParamCount(modelType) && i < ParamCount(modelType)
    ensures var r := CalcErrorSpec(lib, modelType, weightType, x, y, params, paramErrors, aic);
            var o := GridObjective(modelType, weightType, x, y);
            var cov := lib.inverseHessian(o, params[..ParamCount(modelType)]).value;
            Cost(lib, o, params).Some?
            && IsSqrt(r.paramErrors[i], Cost(lib, o, params).value / ((|x| - ParamCount(modelType)) as real) * cov[i][i])
  {
    var o := GridObjective(modelType, weightType, x, y);
    var k := ParamCount(modelType);
    var cov := lib.inverseHessian(o, params[..k]).value;
    DividedResidualNonNegative(Predictions(lib, o.sites, x, params), y, x, weightType);
    var net := Cost(lib, o, params).value;
    WrittenError(lib, modelType, weightType, x, y, params, paramErrors, aic, i);
    assert cov[i][i] >= 0.0;
    StandardErrorIsSqrt(lib, net, |x| - k, cov[i][i]);
  }

  /** With exact float division and square root, a non-negative residual, a
      positive dof and a non-negative variance give the square root of
      net / dof * variance. */
  lemma StandardErrorIsSqrt(lib: Library, net: real, dof: int, variance: real)
    requires ExactQuotient(lib.quotient) && SqrtSound(lib.sqrt)
    requires net >= 0.0 && dof > 0 && variance >= 0.0
    ensures IsSqrt(StandardError(lib, net, dof, variance), net / (dof as real) * variance)
  {
    var q := net / (dof as real);
    assert lib.quotient(net, dof) == q;
    NonNegativeProduct(q, variance);
  }

  /** Slot i < k of the report holds np.sqrt of the quotient times the diagonal entry. */
  lemma WrittenError(lib: Library, modelType: int, weightType: int, x: seq<real>, y: seq<real>,
                     params: seq<real>, paramErrors: seq<real>, aic: real, i: nat)
    requires CovarianceAccepted(lib, modelType, weightType, x, y, params) && |paramErrors| == 4 && i < ParamCount(modelType)
    ensures var o := GridObjective(modelType, weightType, x, y);
            var cov := lib.inverseHessian(o, params[..ParamCount(modelType)]).value;
            Cost(lib, o, params).Some?
            && CalcErrorSpec(lib, modelType, weightType, x, y, params, paramErrors, aic).paramErrors[i]
               == StandardError(lib, Cost(lib, o, params).value, |x| - ParamCount(modelType), cov[i][i])
  {
    var o := GridObjective(modelType, weightType, x, y);
    var k := ParamCount(modelType);
    var net := Cost(lib, o, params);
    assert net.Some?;
    var cov := lib.inverseHessian(o, params[..k]).value;
    var errors := ErrorsWritten(lib, paramErrors, net.value, |x| - k, cov, k);
    assert CalcErrorSpec(lib, modelType, weightType, x, y, params, paramErrors, aic).paramErrors == errors;
  }

  /** On an accepted covariance matrix `calc_error` returns '0' with the
      corrected AIC of the residual at k parameters and N points, except when
      N = k + 1: then the AIC's integer division raises after the errors
      were written. */
  lemma AcceptedAic(lib: Library, modelType: int, weightType: int, x: seq<real>, y: seq<real>,
                    params: seq<real>, paramErrors: seq<real>, aic: real)
    requires CovarianceAccepted(lib, modelType, weightType, x, y, params) && |paramErrors| == 4
    ensures var r := CalcErrorSpec(lib, modelType, weightType, x, y, params, paramErrors, aic);
            var o := GridObjective(modelType, weightType, x, y);
            Cost(lib, o, params).Some?
            && (r.outcome == Raised <==> |x| == ParamCount(modelType) + 1)
            && (|x| != ParamCount(modelType) + 1 ==>
                r.outcome == Code("0") && r.aic == Aic(Cost(lib, o, params).value, ParamCount(modelType), |x|))
  {
    var o := GridObjective(modelType, weightType, x, y);
    var net := Cost(lib, o, params);
    assert net.Some?;
  }

  /** The AIC's complexity terms: with more than five points the two-site
      fit pays a strictly larger penalty than the one-site fit. */
  lemma AicPenalisesTwoSites(net: real, n: nat)
    requires n > 5
    ensures Aic(net, 4, n) > Aic(net, 2, n)
  {
    var a := 40.0 / ((n - 5) as real);
    var b := 12.0 / ((n - 3) as real);
    assert a > 0.0;
    assert b <= 4.0 by {
      assert b * ((n - 3) as real) == 12.0;
      assert (n - 3) as real >= 3.0;
    }
  }

  // ---------------------------------------------------------------------------
  // The model object

  class ProtbindModel {
    var params: seq<real>
    var paramErrors: seq<real>
    var modelType: int
    var weightType: int
    var errorType: int
    var associatedData: Option<seq<DataRow>>
    var predictedFree: Option<seq<real>>
    var xValuesSpanningRange: Option<seq<real>>
    var actualFree: Option<seq<real>>
    var inputXValues: Option<seq<real>>
    var aic: real

    /** Both parameter vectors have the four `param_ids` slots. */
    ghost predicate Valid()
      reads this
    {
      |params| == 4 && |paramErrors| == 4
    }

    constructor(modelType: int, weightType: int, errorType: int)
      ensures Valid() && params == Zeros(4) && paramErrors == Zeros(4)
      ensures this.modelType == modelType && this.weightType == weightType && this.errorType == errorType
      ensures associatedData.None? && predictedFree.None? && xValuesSpanningRange.None?
      ensures actualFree.None? && inputXValues.None? && aic == 0.0
    {
      params := Zeros(4);
      paramErrors := Zeros(4);
      this.modelType := modelType;
      this.weightType := weightType;
      this.errorType := errorType;
      associatedData := None;
      predictedFree := None;
      xValuesSpanningRange := None;
      actualFree := None;
      inputXValues := None;
      aic := 0.0;
    }

    /** `make_preds`: predictions only once data and the spanning grid exist. */
    function MakePreds(lib: Library, xvalues: seq<real>): (r: Preds)
      reads this
      requires Valid() && OneEigenvaluePerRow(lib.eigenvalues)
      ensures r.NotFitted? <==> associatedData.None? || xValuesSpanningRange.None?
      ensures r.NothingReturned? <==> associatedData.Some? && xValuesSpanningRange.Some? && !KnownModel(modelType)
      ensures r.Predicted? ==> (KnownModel(modelType) && r.code == "0" && |r.values| == |xvalues|
        && r.values == FitPredictions(lib, modelType, xvalues, params))
    {
      if associatedData.Some? && xValuesSpanningRange.Some? then
        if KnownModel(modelType) then Predicted(FitPredictions(lib, modelType, xvalues, params), "0")
        else NothingReturned
      else NotFitted
    }

    /** `grid_search`: reset the parameters, minimise from every grid point
      and place the winner in its slots. It raises, with the parameters
      already reset, when the model type has no grid or the weight type makes
      the residual function return None. */
    method GridSearch(lib: Library, x: seq<real>, y: seq<real>) returns (ok: bool)
      requires Valid() && KeepsDimension(lib.minimize)
      modifies this`params
      ensures Valid()
      ensures ok <==> KnownModel(modelType) && 0 <= weightType <= 3
      ensures !ok ==> params == Zeros(4)
      ensures ok ==> params == GridPlacement(lib, modelType, weightType, x, y)
    {
      params := Zeros(4);
      if !KnownModel(modelType) {
        return false;
      }
      var k := ParamCount(modelType);
      if !(0 <= weightType <= 3) {
        return false;
      }
      var o := GridObjective(modelType, weightType, x, y);
      var bestFun, bestParams := BestOfStarts(lib, o, StartGrid(modelType), LowerBounds(k, LowerBound), FirstSuccess, k);
      GridWinnerLength(lib, modelType, weightType, x, y);
      assert bestParams == GridWinner(lib, modelType, weightType, x, y);
      NamesCount(modelType);
      NamesHaveSlots(modelType);
      var names := ModelAssociatedParams[modelType];
      var j := 0;
      while j < |names|
        invariant 0 <= j <= |names| && |params| == 4
        invariant params == Placed(bestParams, modelType, j)
      {
        params := params[ParamIds[names[j]] := bestParams[j]];
        j := j + 1;
      }
      ok := true;
    }

    /** `calc_error` on the data the model was fitted to. */
    method CalcError(lib: Library, x: seq<real>, y: seq<real>) returns (outcome: Outcome)
      requires Valid() && |x| == |y| && (1 <= weightType <= 3 ==> NonZero(x))
      requires OneEigenvaluePerRow(lib.eigenvalues) && SquareInverse(lib.inverseHessian)
      modifies this`paramErrors, this`aic
      ensures Valid()
      ensures ErrorReport(outcome, paramErrors, aic)
        == CalcErrorSpec(lib, modelType, weightType, x, y, params, old(paramErrors), old(aic))
    {
      if !KnownModel(modelType) {
        return Raised;
      }
      var o := GridObjective(modelType, weightType, x, y);
      var k := ParamCount(modelType);
      var net := Cost(lib, o, params);
      var cov := lib.inverseHessian(o, params[..k]);
      outcome := Report(lib, net, cov, |x|, k);
    }

    /** `calc_error` from the residual and the covariance matrix on. */
    method Report(lib: Library, net: Option<real>, cov: Option<seq<seq<real>>>, n: nat, k: nat) returns (outcome: Outcome)
      requires Valid() && k <= 4
      requires cov.Some? ==> |cov.value| == k && forall i :: 0 <= i < k ==> |cov.value[i]| == k
      modifies this`paramErrors, this`aic
      ensures Valid()
      ensures ErrorReport(outcome, paramErrors, aic) == CheckedReport(lib, old(paramErrors), old(aic), net, cov, n, k)
    {
      if net.None? || cov.None? {
        return Raised;
      }
      if HasNegativeEntry(cov.value) {
        return Code(IllPosedMessage);
      }
      WriteErrors(lib, net.value, n - k, cov.value, k);
      if n - k - 1 == 0 {
        return Raised;
      }
      aic := Aic(net.value, k, n);
      outcome := Code("0");
    }

    /** The loop of `calc_error` over the first k slots of `param_errors`. */
    method WriteErrors(lib: Library, net: real, dof: int, cov: seq<seq<real>>, k: nat)
      requires Valid() && k <= 4 && |cov| == k && forall i :: 0 <= i < k ==> |cov[i]| == k
      modifies this`paramErrors
      ensures Valid()
      ensures paramErrors == ErrorsWritten(lib, old(paramErrors), net, dof, cov, k)
    {
      var i := 0;
      while i < k
        invariant 0 <= i <= k && |paramErrors| == 4
        invariant forall p :: 0 <= p < 4 ==> paramErrors[p] == if p < i then StandardError(lib, net, dof, cov[p][p]) else old(paramErrors)[p]
      {
        paramErrors := paramErrors[i := StandardError(lib, net, dof, cov[i][i])];
        i := i + 1;
      }
    }

    /** The fields `model_fit` may change, besides the spanning grid. */
    function Fitted(): FitState
      reads this
    {
      FitState(params, paramErrors, aic, predictedFree, actualFree, inputXValues)
    }

    /** `model_fit`: read the table as floats, build the spanning grid, fit
      by grid search, predict on the grid and compute the errors. */
    method ModelFit(lib: Library) returns (outcome: Outcome)
      requires Valid() && OneEigenvaluePerRow(lib.eigenvalues) && KeepsDimension(lib.minimize)
      requires SquareInverse(lib.inverseHessian)
      modifies this
      ensures Valid()
      ensures modelType == old(modelType) && weightType == old(weightType) && errorType == old(errorType)
      ensures associatedData == old(associatedData)
      ensures Convert(associatedData).None? ==> outcome == Code(ConversionMessage) && unchanged(this)
      ensures Convert(associatedData).Some? && !PositiveTotals(Convert(associatedData).value.x) ==>
        outcome == Raised && unchanged(this)
      ensures Convert(associatedData).Some? && PositiveTotals(Convert(associatedData).value.x) ==>
        xValuesSpanningRange == Some(lib.spanningRange(Convert(associatedData).value.x))
        && (outcome, Fitted()) == FitSpec(lib, modelType, weightType, Convert(associatedData).value.x,
                                          Convert(associatedData).value.y, lib.spanningRange(Convert(associatedData).value.x), old(Fitted()))
    {
      var converted := Convert(associatedData);
      if converted.None? {
        return Code(ConversionMessage);
      }
      var x, y := converted.value.x, converted.value.y;
      if !PositiveTotals(x) {
        return Raised;
      }
      xValuesSpanningRange := Some(lib.spanningRange(x));
      outcome := Fit(lib, x, y);
    }

    /** `binding_fitter` followed by the bookkeeping and `calc_error` of `model_fit`. */
    method Fit(lib: Library, x: seq<real>, y: seq<real>) returns (outcome: Outcome)
      requires Valid() && |x| == |y| && Positive(x) && associatedData.Some? && xValuesSpanningRange.Some?
      requires OneEigenvaluePerRow(lib.eigenvalues) && KeepsDimension(lib.minimize) && SquareInverse(lib.inverseHessian)
      modifies this`params, this`paramErrors, this`aic, this`predictedFree, this`actualFree, this`inputXValues
      ensures Valid()
      ensures (outcome, Fitted()) == FitSpec(lib, modelType, weightType, x, y, xValuesSpanningRange.value, old(Fitted()))
    {
      if !KnownModel(modelType) {
        FitSpecRejected(lib, modelType, weightType, x, y, xValuesSpanningRange.value, Fitted());
        return Raised;
      }
      outcome := SearchAndFinish(lib, x, y);
    }

    /** A known model: `grid_search`, which raises for a rejected weight type
        after resetting the parameters, then the bookkeeping and `calc_error`. */
    method SearchAndFinish(lib: Library, x: seq<real>, y: seq<real>) returns (outcome: Outcome)
      requires Valid() && |x| == |y| && Positive(x) && associatedData.Some? && xValuesSpanningRange.Some?
      requires OneEigenvaluePerRow(lib.eigenvalues) && KeepsDimension(lib.minimize) && SquareInverse(lib.inverseHessian)
      requires KnownModel(modelType)
      modifies this`params, this`paramErrors, this`aic, this`predictedFree, this`actualFree, this`inputXValues
      ensures Valid()
      ensures (outcome, Fitted()) == FitSpec(lib, modelType, weightType, x, y, xValuesSpanningRange.value, old(Fitted()))
    {
      ghost var prior := Fitted();
      var ok := GridSearch(lib, x, y);
      if !ok {
        FitSpecRejected(lib, modelType, weightType, x, y, xValuesSpanningRange.value, prior);
        assert Fitted() == prior.(params := Zeros(4));
        return Raised;
      }
      assert paramErrors == prior.paramErrors && aic == prior.aic;
      FitSpecPlaced(lib, modelType, weightType, x, y, xValuesSpanningRange.value, prior, params);
      outcome := Finish(lib, x, y);
    }

    /** The rest of `model_fit` once the parameters are placed: store the
        predictions on the spanning grid and the observed data, then run
        `calc_error`. */
    method Finish(lib: Library, x: seq<real>, y: seq<real>) returns (outcome: Outcome)
      requires Valid() && |x| == |y| && Positive(x) && associatedData.Some? && xValuesSpanningRange.Some?
      requires KnownModel(modelType)
      requires OneEigenvaluePerRow(lib.eigenvalues) && SquareInverse(lib.inverseHessian)
      modifies this`paramErrors, this`aic, this`predictedFree, this`actualFree, this`inputXValues
      ensures Valid()
      ensures (outcome, Fitted()) == FinishSpec(lib, modelType, weightType, x, y, xValuesSpanningRange.value,
                                                params, old(paramErrors), old(aic))
    {
      var preds := MakePreds(lib, xValuesSpanningRange.value);
      predictedFree := Some(preds.values);
      actualFree := Some(y);
      inputXValues := Some(x);
      assert NonZero(x);
      outcome := CalcError(lib, x, y);
    }
  }

  /** The fields a fit writes. */
  datatype FitState = FitState(params: seq<real>, paramErrors: seq<real>, aic: real, predictedFree: Option<seq<real>>,
                               actualFree: Option<seq<real>>, inputXValues: Option<seq<real>>)

  /** What `model_fit` does once the spanning grid exists: an unknown model
      raises the KeyError of the residual dictionary with nothing changed; a
      weight type the residuals reject raises inside the grid search after the
      parameters were reset; otherwise the grid winner is placed, predictions
      on the spanning grid and the observed data are stored, and `calc_error`
      decides the outcome, the errors and the AIC. */
  function FitSpec(lib: Library, modelType: int, weightType: int, x: seq<real>, y: seq<real>, spanning: seq<real>,
                   prior: FitState): (r: (Outcome, FitState))
    requires |x| == |y| && Positive(x) && |prior.paramErrors| == 4
    requires OneEigenvaluePerRow(lib.eigenvalues) && KeepsDimension(lib.minimize) && SquareInverse(lib.inverseHessian)
  {
    if !KnownModel(modelType) then (Raised, prior)
    else if !(0 <= weightType <= 3) then (Raised, prior.(params := Zeros(4)))
    else
      FinishSpec(lib, modelType, weightType, x, y, spanning, GridPlacement(lib, modelType, weightType, x, y),
                 prior.paramErrors, prior.aic)
  }

  /** A known model and weight type hand the grid winner to `FinishSpec`. */
  lemma FitSpecPlaced(lib: Library, modelType: int, weightType: int, x: seq<real>, y: seq<real>, spanning: seq<real>,
                      prior: FitState, placed: seq<real>)
    requires |x| == |y| && Positive(x) && |prior.paramErrors| == 4
    requires OneEigenvaluePerRow(lib.eigenvalues) && KeepsDimension(lib.minimize) && SquareInverse(lib.inverseHessian)
    requires KnownModel(modelType) && 0 <= weightType <= 3 && placed == GridPlacement(lib, modelType, weightType, x, y)
    ensures FitSpec(lib, modelType, weightType, x, y, spanning, prior)
         == FinishSpec(lib, modelType, weightType, x, y, spanning, placed, prior.paramErrors, prior.aic)
  {
  }

  /** An unknown model raises with nothing changed; a rejected weight type
      raises after the parameters were reset to zeros. */
  lemma FitSpecRejected(lib: Library, modelType: int, weightType: int, x: seq<real>, y: seq<real>, spanning: seq<real>,
                        prior: FitState)
    requires |x| == |y| && Positive(x) && |prior.paramErrors| == 4
    requires OneEigenvaluePerRow(lib.eigenvalues) && KeepsDimension(lib.minimize) && SquareInverse(lib.inverseHessian)
    requires !(KnownModel(modelType) && 0 <= weightType <= 3)
    ensures FitSpec(lib, modelType, weightType, x, y, spanning, prior)
         == if KnownModel(modelType) then (Raised, prior.(params := Zeros(4))) else (Raised, prior)
  {
  }

  /** The state after the placement: the given parameters, the predictions
      of `make_preds` on the spanning grid, the observed data, and what
      `calc_error` reports. */
  function FinishSpec(lib: Library, modelType: int, weightType: int, x: seq<real>, y: seq<real>, spanning: seq<real>,
                      params: seq<real>, paramErrors: seq<real>, aic: real): (r: (Outcome, FitState))
    requires |x| == |y| && Positive(x) && KnownModel(modelType) && |params| == 4 && |paramErrors| == 4
    requires OneEigenvaluePerRow(lib.eigenvalues) && SquareInverse(lib.inverseHessian)
  {
    var report := CalcErrorSpec(lib, modelType, weightType, x, y, params, paramErrors, aic);
    (report.outcome, FitState(params, report.paramErrors, report.aic, Some(FitPredictions(lib, modelType, spanning, params)),
                              Some(y), Some(x)))
  }
}
