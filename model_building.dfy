/** The protbind_model class of the top-level model_building.py: one- and
    two-site binding models fitted from 25 random L-BFGS-B starts, the
    two-site free concentration taken from np.roots, and for the one-site
    model bootstrap errors and prediction bands from 1000 resampled refits.
    Parameters live in a dictionary keyed by name. */
module ModelBuilding {
  import opened Numerics
  import opened Polynomial
  import opened Binding
  import opened Residuals
  import opened MultiStart
  import opened DataTable
  import Bootstrap

  /** The keys of `params` and `param_errors`. */
  datatype ParamName = Kd1 | Kd2 | Kd3 | P1 | P2 | P3

  const InitialParams: map<ParamName, real> := map[Kd1 := 0.1, Kd2 := 10.0, Kd3 := 100.0, P1 := 10.0, P2 := 700.0, P3 := 700.0]
  const InitialErrors: map<ParamName, real> := map[Kd1 := 0.0, Kd2 := 0.0, Kd3 := 0.0, P1 := 0.0, P2 := 0.0, P3 := 0.0]

  /** `num_bootstrap` and `stoch_search_num_iters`. */
  const NumBootstrap: nat := 1000
  const StochSearchNumIters: nat := 25

  /** The lower bound `1e-9` of every fitted parameter. */
  const LowerBound: real := 0.000000001

  // ---------------------------------------------------------------------------
  // twobind: np.roots per total

  /** A root `twobind` keeps: np.isreal, then `root >= 0`. */
  predicate Kept(z: Complex) {
    z.im == 0.0 && z.re >= 0.0
  }

  /** The position of `roots_to_keep[0]` in np.roots' answer. */
  function KeptIndex(roots: seq<Complex>): (r: Option<nat>)
    ensures r.None? <==> forall j :: 0 <= j < |roots| ==> !Kept(roots[j])
    ensures r.Some? ==> (r.value < |roots| && Kept(roots[r.value])
      && forall j :: 0 <= j < r.value ==> !Kept(roots[j]))
  {
    if |roots| == 0 then None
    else if Kept(roots[0]) then Some(0)
    else
      var rest := KeptIndex(roots[1..]);
      if rest.None? then
        assert forall j :: 1 <= j < |roots| ==> roots[j] == roots[1..][j - 1];
        None
      else
        assert forall j :: 1 <= j <= rest.value ==> roots[j] == roots[1..][j - 1];
        Some(rest.value + 1)
  }

  /** The real part of the first real non-negative root, or None where
      `roots_to_keep[0]` raises IndexError. */
  function FirstKept(roots: seq<Complex>): Option<real> {
    var j := KeptIndex(roots);
    if j.None? then None else Some(roots[j.value].re)
  }

  /** `predicted[i]` at total xi, with kd1, kd2, p1, p2 in positions 0 to 3. */
  function PointPrediction(lib: Library, params: seq<real>, xi: real): Option<real>
    requires |params| >= 4
  {
    FirstKept(lib.roots(DescendingCubic(params[0], params[1], params[2], params[3], xi)))
  }

  /** `twobind`: all predictions, or None when some total has no kept root. */
  function TwoBindSpec(lib: Library, x: seq<real>, params: seq<real>): (r: Option<seq<real>>)
    requires |params| >= 4
    ensures r.Some? ==> |r.value| == |x|
  {
    if forall i :: 0 <= i < |x| ==> PointPrediction(lib, params, x[i]).Some? then
      Some(seq(|x|, i requires 0 <= i < |x| => PointPrediction(lib, params, x[i]).value))
    else None
  }

  method TwoBind(lib: Library, x: seq<real>, params: seq<real>) returns (predicted: Option<seq<real>>)
    requires |params| >= 4
    ensures predicted == TwoBindSpec(lib, x, params)
  {
    var kd1, kd2, p1, p2 := params[0], params[1], params[2], params[3];
    var out := new real[|x|](_ => 0.0);
    var i := 0;
    while i < |x|
      invariant 0 <= i <= |x|
      invariant forall j :: 0 <= j < i ==> PointPrediction(lib, params, x[j]).Some? && out[j] == PointPrediction(lib, params, x[j]).value
    {
      var coefficients := DescendingCubic(kd1, kd2, p1, p2, x[i]);
      var kept := FirstKept(lib.roots(coefficients));
      if kept.None? {
        assert !PointPrediction(lib, params, x[i]).Some?;
        return None;
      }
      out[i] := kept.value;
      i := i + 1;
    }
    predicted := Some(out[..]);
    assert out[..] == TwoBindSpec(lib, x, params).value;
  }

  /** np.roots returns roots: every root with zero imaginary part is a zero
      of the polynomial. */
  ghost predicate RootsSound(roots: seq<real> -> seq<Complex>) {
    forall coef: seq<real>, k: int {:trigger roots(coef)[k]} ::
      0 <= k < |roots(coef)| && roots(coef)[k].im == 0.0 ==> EvalDescending(coef, roots(coef)[k].re) == 0.0
  }

  /** With positive dissociation constants and sound roots, every prediction
      `twobind` returns is a non-negative free concentration satisfying the
      two-site mass balance at its total. */
  lemma TwoBindSolvesMassBalance(lib: Library, x: seq<real>, params: seq<real>, i: nat)
    requires |params| >= 4 && params[0] > 0.0 && params[1] > 0.0 && i < |x|
    requires RootsSound(lib.roots) && TwoBindSpec(lib, x, params).Some?
    ensures TwoBindSpec(lib, x, params).value[i] >= 0.0
    ensures x[i] == TwoSiteTotal(params[0], params[1], params[2], params[3], TwoBindSpec(lib, x, params).value[i])
  {
    var kd1, kd2, p1, p2 := params[0], params[1], params[2], params[3];
    var coef := DescendingCubic(kd1, kd2, p1, p2, x[i]);
    var roots := lib.roots(coef);
    assert PointPrediction(lib, params, x[i]).Some?;
    var j := KeptIndex(roots).value;
    var y := roots[j].re;
    assert TwoBindSpec(lib, x, params).value[i] == y;
    assert EvalDescending(coef, y) == 0.0;
    CubicLayouts(kd1, kd2, p1, p2, x[i], y);
    CubicRootIsMassBalance(kd1, kd2, p1, p2, x[i], y);
  }

  /** `twobind` raises IndexError exactly when np.roots gives some total no
      real non-negative root. */
  lemma TwoBindRaisesWithoutRoot(lib: Library, x: seq<real>, params: seq<real>)
    requires |params| >= 4
    ensures TwoBindSpec(lib, x, params).None? <==>
      exists i :: 0 <= i < |x| && NoKeptRoot(lib.roots(DescendingCubic(params[0], params[1], params[2], params[3], x[i])))
  {
  }

  predicate NoKeptRoot(roots: seq<Complex>) {
    forall k :: 0 <= k < |roots| ==> !Kept(roots[k])
  }

  // ---------------------------------------------------------------------------
  // The objective of the fit

  function FitObjective(sites: nat, weightType: int, x: seq<real>, y: seq<real>): Objective {
    Objective(ScaledResiduals, sites, weightType, x, y)
  }

  predicate WellFormed(o: Objective) {
    o.weighting == ScaledResiduals && (o.sites == 1 || o.sites == 2) && |o.actual| == |o.x|
    && (1 <= o.weightType <= 2 ==> NonZero(o.x))
  }

  /** `onebind_resid` / `twobind_resid`: None when the weight type leaves
      `residuals` unbound or `twobind` raises. */
  function Cost(lib: Library, o: Objective, params: seq<real>): Option<real>
    requires WellFormed(o) && |params| >= 2 * o.sites
  {
    if o.sites == 1 then ScaledResidual(OneBindAll(lib, o.x, params), o.actual, o.x, o.weightType)
    else
      var p := TwoBindSpec(lib, o.x, params);
      if p.None? then None else ScaledResidual(p.value, o.actual, o.x, o.weightType)
  }

  /** scipy reports in `fun` the objective's value at the point `x` it returns. */
  ghost predicate ReportsCost(lib: Library, o: Objective)
    requires WellFormed(o)
  {
    forall x0, b {:trigger lib.minimize(o, x0, b)} ::
      lib.minimize(o, x0, b).success && |lib.minimize(o, x0, b).x| >= 2 * o.sites
      ==> Cost(lib, o, lib.minimize(o, x0, b).x) == Some(lib.minimize(o, x0, b).fun)
  }

  // ---------------------------------------------------------------------------
  // The random-start searches

  /** `best_params` of `onebindsite_fitter`: the -1 sentinel, kept by the first success. */
  function OneSiteWinner(lib: Library, weightType: int, x: seq<real>, y: seq<real>, starts: seq<seq<real>>): (best: seq<real>)
    requires KeepsDimension(lib.minimize) && forall j :: 0 <= j < |starts| ==> |starts[j]| == 2
    ensures |best| == 2
  {
    RunsKeepDimension(lib, FitObjective(1, weightType, x, y), starts, LowerBounds(2, LowerBound), 2);
    TrackLength(Runs(lib, FitObjective(1, weightType, x, y), starts, LowerBounds(2, LowerBound)), FirstSuccess, 2);
    Track(Runs(lib, FitObjective(1, weightType, x, y), starts, LowerBounds(2, LowerBound)), FirstSuccess, 2).params
  }

  /** `best_params` of `twobindsite_fitter`: the 10000 ceiling. */
  function TwoSiteWinner(lib: Library, weightType: int, x: seq<real>, y: seq<real>, starts: seq<seq<real>>): (best: seq<real>)
    requires KeepsDimension(lib.minimize) && forall j :: 0 <= j < |starts| ==> |starts[j]| == 4
    ensures |best| == 4
  {
    RunsKeepDimension(lib, FitObjective(2, weightType, x, y), starts, LowerBounds(4, LowerBound), 4);
    TrackLength(Runs(lib, FitObjective(2, weightType, x, y), starts, LowerBounds(4, LowerBound)), Ceiling, 4);
    Track(Runs(lib, FitObjective(2, weightType, x, y), starts, LowerBounds(4, LowerBound)), Ceiling, 4).params
  }

  /** With non-zero totals and scipy reporting the objective's value, the
      one-site search keeps the earliest start among the successful runs of
      lowest cost. */
  lemma OneSiteKeepsEarliestMinimum(lib: Library, weightType: int, x: seq<real>, y: seq<real>, starts: seq<seq<real>>)
    requires |x| == |y| && NonZero(x) && 0 <= weightType <= 2 && KeepsDimension(lib.minimize)
    requires forall j :: 0 <= j < |starts| ==> |starts[j]| == 2
    requires ReportsCost(lib, FitObjective(1, weightType, x, y))
    requires exists j :: 0 <= j < |starts| && Runs(lib, FitObjective(1, weightType, x, y), starts, LowerBounds(2, LowerBound))[j].success
    ensures exists i: nat :: (EarliestMinimum(Runs(lib, FitObjective(1, weightType, x, y), starts, LowerBounds(2, LowerBound)), FirstSuccess, i)
      && OneSiteWinner(lib, weightType, x, y, starts) == Runs(lib, FitObjective(1, weightType, x, y), starts, LowerBounds(2, LowerBound))[i].x)
  {
    var o := FitObjective(1, weightType, x, y);
    var runs := Runs(lib, o, starts, LowerBounds(2, LowerBound));
    RunsKeepDimension(lib, o, starts, LowerBounds(2, LowerBound), 2);
    forall j | 0 <= j < |runs| && runs[j].success
      ensures runs[j].fun >= 0.0
    {
      assert runs[j] == lib.minimize(o, starts[j], LowerBounds(2, LowerBound));
      ScaledResidualNonNegative(OneBindAll(lib, x, runs[j].x), y, x, weightType);
    }
    TrackFindsEarliestMinimum(runs, FirstSuccess, 2);
  }

  /** The two-site search keeps the earliest start of lowest cost among the
      successful runs costing less than 10000, whatever the costs' signs. */
  lemma TwoSiteKeepsEarliestMinimum(lib: Library, weightType: int, x: seq<real>, y: seq<real>, starts: seq<seq<real>>)
    requires KeepsDimension(lib.minimize) && forall j :: 0 <= j < |starts| ==> |starts[j]| == 4
    requires exists j :: 0 <= j < |starts| && Eligible(Ceiling, Runs(lib, FitObjective(2, weightType, x, y), starts, LowerBounds(4, LowerBound))[j])
    ensures exists i: nat :: (EarliestMinimum(Runs(lib, FitObjective(2, weightType, x, y), starts, LowerBounds(4, LowerBound)), Ceiling, i)
      && TwoSiteWinner(lib, weightType, x, y, starts) == Runs(lib, FitObjective(2, weightType, x, y), starts, LowerBounds(4, LowerBound))[i].x)
  {
    TrackFindsEarliestMinimum(Runs(lib, FitObjective(2, weightType, x, y), starts, LowerBounds(4, LowerBound)), Ceiling, 4);
  }

  /** When no run of the two-site search costs less than 10000 the
      parameters found are all zero. */
  lemma TwoSiteCeilingKeepsZeros(lib: Library, weightType: int, x: seq<real>, y: seq<real>, starts: seq<seq<real>>)
    requires KeepsDimension(lib.minimize) && forall j :: 0 <= j < |starts| ==> |starts[j]| == 4
    requires forall j :: 0 <= j < |starts| ==> Runs(lib, FitObjective(2, weightType, x, y), starts, LowerBounds(4, LowerBound))[j].fun >= 10000.0
    ensures TwoSiteWinner(lib, weightType, x, y, starts) == Zeros(4)
  {
    CeilingRejectsCostly(Runs(lib, FitObjective(2, weightType, x, y), starts, LowerBounds(4, LowerBound)), 4);
  }

  // ---------------------------------------------------------------------------
  // The bootstrap of onebindsite_fitter

  /** `np.random.choice(np.arange(0, n), n, replace=True)` for each of the
      1000 refits: n indices below n. */
  predicate ValidDraws(draws: seq<seq<nat>>, n: nat) {
    |draws| == NumBootstrap
    && (forall i :: 0 <= i < |draws| ==> |draws[i]| == n)
    && forall i, j :: 0 <= i < |draws| && 0 <= j < |draws[i]| ==> draws[i][j] < n
  }

  /** `v[current_cases]` */
  function Resample(v: seq<real>, cases: seq<nat>): seq<real>
    requires forall j :: 0 <= j < |cases| ==> cases[j] < |v|
  {
    seq(|cases|, j requires 0 <= j < |cases| => v[cases[j]])
  }

  /** (a, b) is one of the observations (x[i], y[i]). */
  ghost predicate ObservedPair(x: seq<real>, y: seq<real>, a: real, b: real)
    requires |x| == |y|
  {
    exists i :: 0 <= i < |x| && a == x[i] && b == y[i]
  }

  /** Case resampling keeps each observation whole: the j-th resampled total
      and the j-th resampled free concentration are one observed pair. */
  lemma ResampleKeepsPairs(x: seq<real>, y: seq<real>, cases: seq<nat>)
    requires |x| == |y| && forall j :: 0 <= j < |cases| ==> cases[j] < |x|
    ensures |Resample(x, cases)| == |Resample(y, cases)| == |cases|
    ensures forall j :: 0 <= j < |cases| ==> ObservedPair(x, y, Resample(x, cases)[j], Resample(y, cases)[j])
  {
    forall j | 0 <= j < |cases|
      ensures ObservedPair(x, y, Resample(x, cases)[j], Resample(y, cases)[j])
    {
      var i := cases[j];
      assert Resample(x, cases)[j] == x[i] && Resample(y, cases)[j] == y[i];
    }
  }

  /** A resample of non-zero totals has non-zero totals: every refit's
      objective is defined wherever the original one is. */
  lemma ResampleNonZero(v: seq<real>, cases: seq<nat>)
    requires NonZero(v) && forall j :: 0 <= j < |cases| ==> cases[j] < |v|
    ensures NonZero(Resample(v, cases))
  {
  }

  /** `parameter_stack`: each refit starts at `best_params` on the i-th resample. */
  function Refits(lib: Library, weightType: int, x: seq<real>, y: seq<real>, best: seq<real>, draws: seq<seq<nat>>): (stack: seq<seq<real>>)
    requires |x| == |y| && ValidDraws(draws, |x|)
    ensures |stack| == |draws|
  {
    seq(|draws|, i requires 0 <= i < |draws| =>
      lib.minimize(FitObjective(1, weightType, Resample(x, draws[i]), Resample(y, draws[i])), best, LowerBounds(2, LowerBound)).x)
  }

  lemma RefitsKeepDimension(lib: Library, weightType: int, x: seq<real>, y: seq<real>, best: seq<real>, draws: seq<seq<nat>>)
    requires |x| == |y| && ValidDraws(draws, |x|) && KeepsDimension(lib.minimize)
    ensures forall i :: 0 <= i < |draws| ==> |Refits(lib, weightType, x, y, best, draws)[i]| == |best|
  {
    forall i | 0 <= i < |draws|
      ensures |Refits(lib, weightType, x, y, best, draws)[i]| == |best|
    {
      var o := FitObjective(1, weightType, Resample(x, draws[i]), Resample(y, draws[i]));
      assert Refits(lib, weightType, x, y, best, draws)[i] == lib.minimize(o, best, LowerBounds(2, LowerBound)).x;
    }
  }

  /** The refits of the one-site bootstrap, each started at the search winner. */
  function OneSiteStack(lib: Library, weightType: int, x: seq<real>, y: seq<real>, starts: seq<seq<real>>,
                        draws: seq<seq<nat>>): (stack: seq<seq<real>>)
    requires |x| == |y| && ValidDraws(draws, |x|) && KeepsDimension(lib.minimize)
    requires forall j :: 0 <= j < |starts| ==> |starts[j]| == 2
    ensures |stack| == NumBootstrap && forall i :: 0 <= i < |stack| ==> |stack[i]| == 2
  {
    RefitsKeepDimension(lib, weightType, x, y, OneSiteWinner(lib, weightType, x, y, starts), draws);
    Refits(lib, weightType, x, y, OneSiteWinner(lib, weightType, x, y, starts), draws)
  }

  /** `predictions_stack`: the one-site curve of each refit on the spanning grid. */
  function RefitCurves(lib: Library, spanning: seq<real>, stack: seq<seq<real>>): (curves: seq<seq<real>>)
    requires forall i :: 0 <= i < |stack| ==> |stack[i]| >= 2
    ensures |curves| == |stack| && Bootstrap.Rectangular(curves, |spanning|)
  {
    seq(|stack|, i requires 0 <= i < |stack| => OneBindAll(lib, spanning, stack[i]))
  }

  method BootstrapRefits(lib: Library, weightType: int, x: seq<real>, y: seq<real>, best: seq<real>,
                         spanning: seq<real>, draws: seq<seq<nat>>)
    returns (parameterStack: seq<seq<real>>, predictionsStack: seq<seq<real>>)
    requires |x| == |y| && ValidDraws(draws, |x|) && |best| == 2 && KeepsDimension(lib.minimize)
    ensures parameterStack == Refits(lib, weightType, x, y, best, draws)
    ensures (forall i :: 0 <= i < |parameterStack| ==> |parameterStack[i]| == 2)
      && predictionsStack == RefitCurves(lib, spanning, parameterStack)
  {
    RefitsKeepDimension(lib, weightType, x, y, best, draws);
    ghost var refits := Refits(lib, weightType, x, y, best, draws);
    parameterStack, predictionsStack := [], [];
    var i := 0;
    while i < NumBootstrap
      invariant 0 <= i <= NumBootstrap
      invariant parameterStack == refits[..i]
      invariant |predictionsStack| == i
      invariant forall r :: 0 <= r < i ==> predictionsStack[r] == OneBindAll(lib, spanning, refits[r])
    {
      var currentCases := draws[i];
      var ssbm := lib.minimize(FitObjective(1, weightType, Resample(x, currentCases), Resample(y, currentCases)), best, LowerBounds(2, LowerBound));
      parameterStack := parameterStack + [ssbm.x];
      predictionsStack := predictionsStack + [OneBindAll(lib, spanning, ssbm.x)];
      i := i + 1;
    }
  }

  /** The standard error of the kd1 or p1 column is the population standard
      deviation of the refits: its square is their variance, and it is zero
      exactly when all 1000 refits agree on that parameter. */
  lemma BootstrapErrorIsSpread(lib: Library, stack: seq<seq<real>>, j: nat)
    requires |stack| == NumBootstrap && forall r :: 0 <= r < |stack| ==> j < |stack[r]|
    requires IsSqrt(lib.sqrt(Bootstrap.Variance(Column(stack, j))), Bootstrap.Variance(Column(stack, j)))
    ensures Bootstrap.Std(lib, Column(stack, j)) >= 0.0
    ensures Bootstrap.Std(lib, Column(stack, j)) * Bootstrap.Std(lib, Column(stack, j))
            == Bootstrap.Variance(Column(stack, j))
    ensures Bootstrap.Std(lib, Column(stack, j)) == 0.0 <==> forall r :: 0 <= r < |stack| ==> stack[r][j] == stack[0][j]
  {
    var col := Column(stack, j);
    Bootstrap.VarianceNonNegative(lib, col);
    Bootstrap.VarianceZeroIffConstant(col);
    var s := Bootstrap.Std(lib, col);
    if s == 0.0 {
      assert Bootstrap.Variance(col) == 0.0;
    } else {
      assert Bootstrap.Variance(col) != 0.0 by { ZeroProduct(s, s); }
    }
    assert forall r :: 0 <= r < |stack| ==> col[r] == stack[r][j];
  }

  /** The bands: at every grid point the low band is at most the high band,
      both are predictions of some refit, at most 25 refits predict below
      the low band and at most 24 above the high band. */
  lemma BandsBracketRefits(curves: seq<seq<real>>, w: nat, j: nat)
    requires Bootstrap.Rectangular(curves, w) && |curves| == NumBootstrap && j < w
    ensures Bootstrap.LowBand(curves, w)[j] <= Bootstrap.HighBand(curves, w)[j]
    ensures Bootstrap.LowBand(curves, w)[j] in multiset(Column(curves, j))
    ensures Bootstrap.HighBand(curves, w)[j] in multiset(Column(curves, j))
    ensures Bootstrap.CountBelow(Column(curves, j), Bootstrap.LowBand(curves, w)[j]) <= 25
    ensures Bootstrap.CountAbove(Column(curves, j), Bootstrap.HighBand(curves, w)[j]) <= 24
  {
    Bootstrap.BandSpec(curves, w, j);
  }

  // ---------------------------------------------------------------------------
  // The fitted state

  /** Both dictionaries hold every parameter name. */
  predicate Complete(m: map<ParamName, real>) {
    Kd1 in m && Kd2 in m && Kd3 in m && P1 in m && P2 in m && P3 in m
  }

  /** The random starts of `onebindsite_fitter` (two columns) or
      `twobindsite_fitter` (four columns), one row per iteration. */
  predicate StartsFor(modelType: int, starts: seq<seq<real>>) {
    |starts| == StochSearchNumIters
    && forall j :: 0 <= j < |starts| ==> |starts[j]| == (if modelType == 1 then 4 else 2)
  }

  /** The fields a fit writes. */
  datatype FitState = FitState(params: map<ParamName, real>, paramErrors: map<ParamName, real>,
                               predictedFree: Option<seq<real>>, lowpreds: Option<seq<real>>,
                               highpreds: Option<seq<real>>)

  /** `onebindsite_fitter`, as a pair of "returned normally" and the new
      state: a weight type outside 0..2 raises inside the first minimisation
      with nothing written; otherwise kd1 and p1 take the search winner, the
      curve on the spanning grid is stored, and for error types 0 and 1 the
      bootstrap writes the kd1 and p1 errors and the two bands. */
  function OneSiteFit(lib: Library, weightType: int, errorType: int, x: seq<real>, y: seq<real>,
                      spanning: seq<real>, starts: seq<seq<real>>, draws: seq<seq<nat>>, prior: FitState): (r: (bool, FitState))
    requires |x| == |y| && KeepsDimension(lib.minimize) && ValidDraws(draws, |x|) && StartsFor(0, starts)
  {
    if !(0 <= weightType <= 2) then (false, prior)
    else
      var best := OneSiteWinner(lib, weightType, x, y, starts);
      var placed := prior.(params := prior.params[Kd1 := best[0]][P1 := best[1]],
                           predictedFree := Some(OneBindAll(lib, spanning, best)));
      if errorType == 1 || errorType == 0 then
        (true, WithBands(lib, spanning, OneSiteStack(lib, weightType, x, y, starts, draws), placed))
      else (true, placed)
  }

  /** The bootstrap's bookkeeping: kd1 and p1 errors are the spreads of the
      refit columns, and the bands are the pointwise 2.5/97.5 percentiles of
      the refit curves. */
  function WithBands(lib: Library, spanning: seq<real>, stack: seq<seq<real>>, s: FitState): FitState
    requires |stack| == NumBootstrap && forall i :: 0 <= i < |stack| ==> |stack[i]| == 2
  {
    var curves := RefitCurves(lib, spanning, stack);
    s.(paramErrors := s.paramErrors[Kd1 := Bootstrap.Std(lib, Column(stack, 0))]
                                   [P1 := Bootstrap.Std(lib, Column(stack, 1))],
       lowpreds := Some(Bootstrap.LowBand(curves, |spanning|)),
       highpreds := Some(Bootstrap.HighBand(curves, |spanning|)))
  }

  /** `twobindsite_fitter`: a weight type outside 0..2 raises with nothing
      written; otherwise kd1, kd2, p1, p2 take the search winner and
      `predicted_free` is `onebind` of the winner, which reads only its first
      two entries. Error type 1 then raises: the bootstrap hands a start of
      four parameters with two bounds to L-BFGS-B. */
  function TwoSiteFit(lib: Library, weightType: int, errorType: int, x: seq<real>, y: seq<real>,
                      spanning: seq<real>, starts: seq<seq<real>>, prior: FitState): (r: (bool, FitState))
    requires KeepsDimension(lib.minimize) && StartsFor(1, starts)
  {
    if !(0 <= weightType <= 2) then (false, prior)
    else
      var best := TwoSiteWinner(lib, weightType, x, y, starts);
      var placed := prior.(params := prior.params[Kd1 := best[0]][Kd2 := best[1]][P1 := best[2]][P2 := best[3]],
                           predictedFree := Some(OneBindAll(lib, spanning, best)));
      (errorType != 1, placed)
  }

  /** What `model_fit` does once the spanning grid exists: dispatch on the
      model type. The three-site fitter's message is discarded and any other
      model type fits nothing; either way '0' is returned. */
  function FitOutcome(lib: Library, modelType: int, weightType: int, errorType: int, x: seq<real>, y: seq<real>,
                      spanning: seq<real>, starts: seq<seq<real>>, draws: seq<seq<nat>>, prior: FitState): (r: (Outcome, FitState))
    requires |x| == |y| && KeepsDimension(lib.minimize) && ValidDraws(draws, |x|) && StartsFor(modelType, starts)
  {
    if modelType == 0 then
      var f := OneSiteFit(lib, weightType, errorType, x, y, spanning, starts, draws, prior);
      (if f.0 then Code("0") else Raised, f.1)
    else if modelType == 1 then
      var f := TwoSiteFit(lib, weightType, errorType, x, y, spanning, starts, prior);
      (if f.0 then Code("0") else Raised, f.1)
    else (Code("0"), prior)
  }

  /** The one-site fit returns normally exactly for the weight types 0 to 2,
      writes nothing when it raises, touches no parameter but kd1 and p1, and
      leaves errors and bands alone unless the error type asks for the
      bootstrap. */
  lemma OneSiteFitFrame(lib: Library, weightType: int, errorType: int, x: seq<real>, y: seq<real>,
                        spanning: seq<real>, starts: seq<seq<real>>, draws: seq<seq<nat>>, prior: FitState)
    requires |x| == |y| && KeepsDimension(lib.minimize) && ValidDraws(draws, |x|) && StartsFor(0, starts)
    ensures var r := OneSiteFit(lib, weightType, errorType, x, y, spanning, starts, draws, prior);
      (r.0 <==> 0 <= weightType <= 2)
      && (!r.0 ==> r.1 == prior)
      && (forall n :: n in prior.params && n != Kd1 && n != P1 ==> n in r.1.params && r.1.params[n] == prior.params[n])
      && (forall n :: n in prior.paramErrors && n != Kd1 && n != P1 ==>
            n in r.1.paramErrors && r.1.paramErrors[n] == prior.paramErrors[n])
      && (r.0 && errorType != 0 && errorType != 1 ==>
            r.1.paramErrors == prior.paramErrors && r.1.lowpreds == prior.lowpreds && r.1.highpreds == prior.highpreds)
  {
  }

  /** The two-site fit returns normally exactly for the weight types 0 to 2
      without the bootstrap, writes nothing when the weight type is unknown,
      never writes errors or bands, and touches only kd1, kd2, p1 and p2. */
  lemma TwoSiteFitFrame(lib: Library, weightType: int, errorType: int, x: seq<real>, y: seq<real>,
                        spanning: seq<real>, starts: seq<seq<real>>, prior: FitState)
    requires KeepsDimension(lib.minimize) && StartsFor(1, starts)
    ensures var r := TwoSiteFit(lib, weightType, errorType, x, y, spanning, starts, prior);
      (r.0 <==> 0 <= weightType <= 2 && errorType != 1)
      && (!(0 <= weightType <= 2) ==> r.1 == prior)
      && r.1.paramErrors == prior.paramErrors && r.1.lowpreds == prior.lowpreds && r.1.highpreds == prior.highpreds
      && (forall n :: n in prior.params && n != Kd1 && n != Kd2 && n != P1 && n != P2 ==>
            n in r.1.params && r.1.params[n] == prior.params[n])
  {
  }

  /** `model_fit` after the conversion: it raises exactly when a one- or
      two-site fit meets a weight type outside 0..2 or the two-site bootstrap
      runs; every other path returns '0', and model types other than 0 and 1
      (the three-site message included) change nothing. */
  lemma FitOutcomeCodes(lib: Library, modelType: int, weightType: int, errorType: int, x: seq<real>, y: seq<real>,
                        spanning: seq<real>, starts: seq<seq<real>>, draws: seq<seq<nat>>, prior: FitState)
    requires |x| == |y| && KeepsDimension(lib.minimize) && ValidDraws(draws, |x|) && StartsFor(modelType, starts)
    ensures var r := FitOutcome(lib, modelType, weightType, errorType, x, y, spanning, starts, draws, prior);
      (r.0 == Raised <==> ((modelType == 0 || modelType == 1) && !(0 <= weightType <= 2))
                          || (modelType == 1 && errorType == 1))
      && (r.0 != Raised ==> r.0 == Code("0"))
      && (modelType != 0 && modelType != 1 ==> r.1 == prior)
  {
    if modelType == 0 {
      OneSiteFitFrame(lib, weightType, errorType, x, y, spanning, starts, draws, prior);
    } else if modelType == 1 {
      TwoSiteFitFrame(lib, weightType, errorType, x, y, spanning, starts, prior);
    }
  }

  /** With an exact square root and a positive kd1 and non-negative p1 after
      the one-site fit, `predicted_free` holds at every non-negative grid
      point a free concentration between 0 and the total that satisfies the
      one-site mass balance of the stored kd1 and p1. */
  lemma OneSiteCurveSolvesMassBalance(lib: Library, weightType: int, errorType: int, x: seq<real>, y: seq<real>,
                                      spanning: seq<real>, starts: seq<seq<real>>, draws: seq<seq<nat>>, prior: FitState, i: nat)
    requires |x| == |y| && KeepsDimension(lib.minimize) && ValidDraws(draws, |x|) && StartsFor(0, starts)
    requires SqrtSound(lib.sqrt) && 0 <= weightType <= 2 && i < |spanning| && spanning[i] >= 0.0
    requires var s := OneSiteFit(lib, weightType, errorType, x, y, spanning, starts, draws, prior).1;
             s.params[Kd1] > 0.0 && s.params[P1] >= 0.0
    ensures var s := OneSiteFit(lib, weightType, errorType, x, y, spanning, starts, draws, prior).1;
            s.predictedFree.Some? && |s.predictedFree.value| == |spanning|
            && 0.0 <= s.predictedFree.value[i] <= spanning[i]
            && spanning[i] == s.predictedFree.value[i] + s.params[P1] * s.predictedFree.value[i] / (s.params[Kd1] + s.predictedFree.value[i])
  {
    var best := OneSiteWinner(lib, weightType, x, y, starts);
    OneBindAllSolvesMassBalance(lib, spanning, best, i);
  }

  /** After the two-site fit the stored curve is the one-site curve with kd1
      as its constant and kd2 in the place of the total protein: with an
      exact square root, a positive kd1 and a non-negative kd2 it satisfies
      x = y + kd2*y/(kd1 + y) at every non-negative grid point. */
  lemma TwoSiteCurveIsOneSiteInKd2(lib: Library, weightType: int, errorType: int, x: seq<real>, y: seq<real>,
                                   spanning: seq<real>, starts: seq<seq<real>>, prior: FitState, i: nat)
    requires KeepsDimension(lib.minimize) && StartsFor(1, starts)
    requires SqrtSound(lib.sqrt) && 0 <= weightType <= 2 && i < |spanning| && spanning[i] >= 0.0
    requires var s := TwoSiteFit(lib, weightType, errorType, x, y, spanning, starts, prior).1;
             s.params[Kd1] > 0.0 && s.params[Kd2] >= 0.0
    ensures var s := TwoSiteFit(lib, weightType, errorType, x, y, spanning, starts, prior).1;
            s.predictedFree.Some? && |s.predictedFree.value| == |spanning|
            && 0.0 <= s.predictedFree.value[i] <= spanning[i]
            && spanning[i] == s.predictedFree.value[i] + s.params[Kd2] * s.predictedFree.value[i] / (s.params[Kd1] + s.predictedFree.value[i])
  {
    var best := TwoSiteWinner(lib, weightType, x, y, starts);
    OneBindAllSolvesMassBalance(lib, spanning, best, i);
  }

  /** The bootstrap errors of the one-site fit are the spread of the 1000
      refits: each is non-negative, its square is the population variance of
      that parameter over the refits, and it is zero exactly when all refits
      agree on it. */
  lemma OneSiteErrorsAreSpread(lib: Library, weightType: int, errorType: int, x: seq<real>, y: seq<real>,
                               spanning: seq<real>, starts: seq<seq<real>>, draws: seq<seq<nat>>, prior: FitState)
    requires |x| == |y| && KeepsDimension(lib.minimize) && ValidDraws(draws, |x|) && StartsFor(0, starts)
    requires SqrtSound(lib.sqrt) && 0 <= weightType <= 2 && (errorType == 0 || errorType == 1)
    ensures var stack := OneSiteStack(lib, weightType, x, y, starts, draws);
            var kd1 := Bootstrap.Std(lib, Column(stack, 0));
            var p1 := Bootstrap.Std(lib, Column(stack, 1));
            OneSiteFit(lib, weightType, errorType, x, y, spanning, starts, draws, prior).1.paramErrors
              == prior.paramErrors[Kd1 := kd1][P1 := p1]
            && kd1 >= 0.0 && kd1 * kd1 == Bootstrap.Variance(Column(stack, 0))
            && (kd1 == 0.0 <==> forall r :: 0 <= r < |stack| ==> stack[r][0] == stack[0][0])
            && p1 >= 0.0 && p1 * p1 == Bootstrap.Variance(Column(stack, 1))
            && (p1 == 0.0 <==> forall r :: 0 <= r < |stack| ==> stack[r][1] == stack[0][1])
  {
    Bootstrap.VarianceNonNegative(lib, Column(OneSiteStack(lib, weightType, x, y, starts, draws), 0));
    Bootstrap.VarianceNonNegative(lib, Column(OneSiteStack(lib, weightType, x, y, starts, draws), 1));
    BootstrapErrorIsSpread(lib, OneSiteStack(lib, weightType, x, y, starts, draws), 0);
    BootstrapErrorIsSpread(lib, OneSiteStack(lib, weightType, x, y, starts, draws), 1);
  }

  /** The bands of the one-site fit: at every grid point the low band is at
      most the high band, both are predictions of some refit, at most 25
      refits predict below the low band and at most 24 above the high band. */
  lemma OneSiteBandsBracketRefits(lib: Library, weightType: int, errorType: int, x: seq<real>, y: seq<real>,
                                  spanning: seq<real>, starts: seq<seq<real>>, draws: seq<seq<nat>>, prior: FitState, j: nat)
    requires |x| == |y| && KeepsDimension(lib.minimize) && ValidDraws(draws, |x|) && StartsFor(0, starts)
    requires 0 <= weightType <= 2 && (errorType == 0 || errorType == 1) && j < |spanning|
    ensures var curves := RefitCurves(lib, spanning, OneSiteStack(lib, weightType, x, y, starts, draws));
            var s := OneSiteFit(lib, weightType, errorType, x, y, spanning, starts, draws, prior).1;
            s.lowpreds.Some? && s.highpreds.Some? && |s.lowpreds.value| == |s.highpreds.value| == |spanning|
            && s.lowpreds.value[j] <= s.highpreds.value[j]
            && s.lowpreds.value[j] in multiset(Column(curves, j))
            && s.highpreds.value[j] in multiset(Column(curves, j))
            && Bootstrap.CountBelow(Column(curves, j), s.lowpreds.value[j]) <= 25
            && Bootstrap.CountAbove(Column(curves, j), s.highpreds.value[j]) <= 24
  {
    var curves := RefitCurves(lib, spanning, OneSiteStack(lib, weightType, x, y, starts, draws));
    BandsBracketRefits(curves, |spanning|, j);
  }

  // ---------------------------------------------------------------------------
  // protbind_model

  class ProtbindModel {
    var params: map<ParamName, real>
    var paramErrors: map<ParamName, real>
    var modelType: int
    var weightType: int
    var errorType: int
    var associatedData: Option<seq<DataRow>>
    var predictedFree: Option<seq<real>>
    var xValuesSpanningRange: Option<seq<real>>
    var lowpreds: Option<seq<real>>
    var highpreds: Option<seq<real>>

    /** Both dictionaries keep all six parameter names. */
    predicate Valid()
      reads this
    {
      Complete(params) && Complete(paramErrors)
    }

    /** The defaults of the model: the initial dictionaries, no data and no fit. */
    constructor (modelType: int, weightType: int, errorType: int)
      ensures Valid()
      ensures params == InitialParams && paramErrors == InitialErrors
      ensures this.modelType == modelType && this.weightType == weightType && this.errorType == errorType
      ensures associatedData.None? && predictedFree.None? && xValuesSpanningRange.None?
      ensures lowpreds.None? && highpreds.None?
    {
      params := InitialParams;
      paramErrors := InitialErrors;
      this.modelType := modelType;
      this.weightType := weightType;
      this.errorType := errorType;
      associatedData := None;
      predictedFree := None;
      xValuesSpanningRange := None;
      lowpreds := None;
      highpreds := None;
    }

    function Fitted(): FitState
      reads this
    {
      FitState(params, paramErrors, predictedFree, lowpreds, highpreds)
    }

    /** `model_fit`: the columns that do not convert give the fixed message
        and change nothing; totals np.log cannot take (or none at all) make
        the spanning grid raise, again with nothing changed; otherwise the
        grid is stored and the fitter of the model type runs. */
    method ModelFit(lib: Library, starts: seq<seq<real>>, draws: seq<seq<nat>>) returns (outcome: Outcome)
      requires Valid() && KeepsDimension(lib.minimize) && StartsFor(modelType, starts)
      requires associatedData.Some? ==> ValidDraws(draws, |associatedData.value|)
      modifies this
      ensures Valid()
      ensures modelType == old(modelType) && weightType == old(weightType) && errorType == old(errorType)
      ensures associatedData == old(associatedData)
      ensures Convert(associatedData).None? ==> outcome == Code(ConversionMessage) && unchanged(this)
      ensures Convert(associatedData).Some? && !PositiveTotals(Convert(associatedData).value.x) ==>
        outcome == Raised && unchanged(this)
      ensures Convert(associatedData).Some? && PositiveTotals(Convert(associatedData).value.x) ==>
        xValuesSpanningRange == Some(lib.spanningRange(Convert(associatedData).value.x))
        && (outcome, Fitted()) == FitOutcome(lib, modelType, weightType, errorType, Convert(associatedData).value.x,
                                             Convert(associatedData).value.y, lib.spanningRange(Convert(associatedData).value.x),
                                             starts, draws, old(Fitted()))
    {
      var converted := Convert(associatedData);
      if converted.None? {
        return Code(ConversionMessage);
      }
      var x, y := converted.value.x, converted.value.y;
      if !PositiveTotals(x) {
        return Raised;
      }
      xValuesSpanningRange := Some(lib.spanningRange(x));
      outcome := Dispatch(lib, x, y, starts, draws);
    }

    /** The dispatch of `model_fit` on the model type, once the grid exists. */
    method Dispatch(lib: Library, x: seq<real>, y: seq<real>, starts: seq<seq<real>>, draws: seq<seq<nat>>)
      returns (outcome: Outcome)
      requires Valid() && |x| == |y| && xValuesSpanningRange.Some? && KeepsDimension(lib.minimize)
      requires ValidDraws(draws, |x|) && StartsFor(modelType, starts)
      modifies this`params, this`paramErrors, this`predictedFree, this`lowpreds, this`highpreds
      ensures Valid()
      ensures (outcome, Fitted()) == FitOutcome(lib, modelType, weightType, errorType, x, y, xValuesSpanningRange.value,
                                                starts, draws, old(Fitted()))
    {
      if modelType == 0 {
        var ok := OneBindSiteFitter(lib, x, y, starts, draws);
        if !ok {
          return Raised;
        }
      } else if modelType == 1 {
        var ok := TwoBindSiteFitter(lib, x, y, starts);
        if !ok {
          return Raised;
        }
      } else if modelType == 2 {
        var _ := ThreeBindSiteFitter();
      }
      outcome := Code("0");
    }

    /** `onebindsite_fitter` on the converted columns: it returns normally
        exactly when the weight type is one `onebind_resid` knows, and leaves
        the state `OneSiteFit` describes. */
    method OneBindSiteFitter(lib: Library, x: seq<real>, y: seq<real>, starts: seq<seq<real>>, draws: seq<seq<nat>>)
      returns (ok: bool)
      requires Valid() && |x| == |y| && xValuesSpanningRange.Some? && KeepsDimension(lib.minimize)
      requires ValidDraws(draws, |x|) && StartsFor(0, starts)
      modifies this`params, this`paramErrors, this`predictedFree, this`lowpreds, this`highpreds
      ensures Valid()
      ensures (ok, Fitted()) == OneSiteFit(lib, weightType, errorType, x, y, xValuesSpanningRange.value, starts, draws, old(Fitted()))
    {
      if !(0 <= weightType <= 2) {
        return false;
      }
      var spanning := xValuesSpanningRange.value;
      var bestFun, bestParams := BestOfStarts(lib, FitObjective(1, weightType, x, y), starts, LowerBounds(2, LowerBound), FirstSuccess, 2);
      assert bestParams == OneSiteWinner(lib, weightType, x, y, starts);
      params := params[Kd1 := bestParams[0]][P1 := bestParams[1]];
      predictedFree := Some(OneBindAll(lib, spanning, bestParams));
      if errorType == 1 || errorType == 0 {
        var parameterStack, predictionsStack := BootstrapRefits(lib, weightType, x, y, bestParams, spanning, draws);
        StoreBands(lib, spanning, parameterStack, predictionsStack);
      }
      ok := true;
    }

    /** Stores the refits' spreads as the kd1 and p1 errors and their percentile curves as the bands. */
    method StoreBands(lib: Library, spanning: seq<real>, parameterStack: seq<seq<real>>, predictionsStack: seq<seq<real>>)
      requires Valid() && |parameterStack| == NumBootstrap
      requires forall i :: 0 <= i < |parameterStack| ==> |parameterStack[i]| == 2
      requires predictionsStack == RefitCurves(lib, spanning, parameterStack)
      modifies this`paramErrors, this`lowpreds, this`highpreds
      ensures Valid()
      ensures Fitted() == WithBands(lib, spanning, parameterStack, old(Fitted()))
    {
      paramErrors := paramErrors[Kd1 := Bootstrap.Std(lib, Column(parameterStack, 0))]
                                [P1 := Bootstrap.Std(lib, Column(parameterStack, 1))];
      lowpreds := Some(Bootstrap.LowBand(predictionsStack, |spanning|));
      highpreds := Some(Bootstrap.HighBand(predictionsStack, |spanning|));
    }

    /** `twobindsite_fitter`: returns normally exactly when the weight type
        is known and no bootstrap is asked for, leaving the state
        `TwoSiteFit` describes. */
    method TwoBindSiteFitter(lib: Library, x: seq<real>, y: seq<real>, starts: seq<seq<real>>) returns (ok: bool)
      requires Valid() && xValuesSpanningRange.Some? && KeepsDimension(lib.minimize) && StartsFor(1, starts)
      modifies this`params, this`predictedFree
      ensures Valid()
      ensures (ok, Fitted()) == TwoSiteFit(lib, weightType, errorType, x, y, xValuesSpanningRange.value, starts, old(Fitted()))
    {
      if !(0 <= weightType <= 2) {
        return false;
      }
      var bestFun, bestParams := BestOfStarts(lib, FitObjective(2, weightType, x, y), starts, LowerBounds(4, LowerBound), Ceiling, 4);
      assert bestParams == TwoSiteWinner(lib, weightType, x, y, starts);
      params := params[Kd1 := bestParams[0]][Kd2 := bestParams[1]][P1 := bestParams[2]][P2 := bestParams[3]];
      predictedFree := Some(OneBindAll(lib, xValuesSpanningRange.value, bestParams));
      ok := errorType != 1;
    }

    /** `threebindsite_fitter`: a message and nothing else. */
    method ThreeBindSiteFitter() returns (message: string)
      ensures message == ThreeSiteMessage
    {
      message := ThreeSiteMessage;
    }
  }

  const ThreeSiteMessage: string := "This method is not offered yet!!"
}
