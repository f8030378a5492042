# binding_site_fitter: a verified model of the fitting core

binding_site_fitter fits protein-binding equilibria to measured pairs of
total and free ligand concentration. This project models the fitting core of
the repository in Dafny and proves what the core promises. The core is:

- `protbind_model` in `scripts/model_building.py`. It runs a grid search, then
  computes Fisher-information errors and the AIC. Its two-site curve is solved
  by the C++ root finder.
- `protbind_model` in the top-level `model_building.py`. It runs a search from
  random starts and keeps bootstrap bands. Its two-site curve is solved by
  `np.roots`.
- `root_eater.cpp`, which exports `find_roots`, `single_pos_special_cubic` and
  `single_pos_special_quartic`.
- `root_eater.c`, an older `find_roots`.

Everything is over Dafny `real`. Array-filling loops stay methods over Dafny
arrays, and each is proved against a specification function. The Python
objects are classes whose methods change their fields. Each such method is
proved against a function of the old state.

The numeric libraries are opaque functions bundled in `Numerics.Library`:
- L-BFGS-B as `minimize`;
- the inverse of the numdifftools Hessian;
- `np.roots`;
- Eigen's `eigenvalues()`;
- `np.sqrt`;
- float division by an integer count;
- the log-spaced prediction grid.

Only the facts the proofs need are assumed about them, each as a named
predicate in a `requires`. For example, there is one eigenvalue per row, and a
sound square root. Random numbers are inputs: the random start points of the
top-level fitters (`starts`) and the bootstrap case draws (`draws`).

Modules, lowest first:

| Module | Contents |
|---|---|
| `Numerics` | the library record and its assumptions, `Pow`, `Zeros` |
| `Residuals` | the two residual weightings |
| `Polynomial` | polynomial evaluation, companion matrices and their eigenvalues |
| `Binding` | the one-site closed form and the two-site cubic |
| `MultiStart` | best-run tracking |
| `Bootstrap` | sorting, bands, variance |
| `DataTable` | numeric conversion of the data |
| `RootEaterCpp` | `root_eater.cpp` |
| `RootEaterC` | `root_eater.c` |
| `ScriptsModelBuilding` | `scripts/model_building.py` |
| `ModelBuilding` | `model_building.py` |

In these places the code behaves in ways a reader may not expect; the model
follows the code:

- **Failures raise.** A failure raises a Python exception; this is modelled
  as the `Raised` outcome. Such failures include:
  - an unknown weight type, which leaves `residuals` unbound or returns `None`;
  - an unknown model type in the scripts version (a `KeyError`);
  - a non-invertible Hessian;
  - N = k + 1 in the AIC;
  - totals that are empty, where `np.min` raises, or that hold a zero or
    negative value, where `np.arange` over the logarithms raises.
- **Model type 2 in the top-level file** calls `threebindsite_fitter`, which
  only returns a message. `model_fit` discards that message and returns '0';
  any other model type also fits nothing and returns '0'.
- **Root selection** in the top-level `twobind` takes the first kept root in
  the order `np.roots` reports it.
- **Top-level weighting** scales each residual before squaring, so weight 1
  is Σr²/x² and weight 2 is Σr²/x⁴. Only `scripts/model_building.py`
  divides the squares, and only it has weight type 3.
- **`twobindsite_fitter` stores `onebind(spanning, best_params)`** as its
  predicted curve. This reads kd1 and kd2 as the one-site kd and ptot.
- **`best_match` in the special root finders** keeps its value from one row
  to the next.

## Model

| member | source | states |
|---|---|---|
| Binding.OneBindAll | scripts/model_building.py:75-80 | `onebind` on a vector of totals: one prediction per total, from params[0] and params[1] only |
| Binding.OneBindSolvesQuadratic | scripts/model_building.py:78-79 | with an exact square root, the closed form is a root of y² + (kd+ptot−x)·y − kd·x |
| Binding.OneBindBounds | model_building.py:44-45 | for non-negative kd, ptot and total, the predicted free concentration lies between 0 and the total |
| Binding.OneSiteMassBalance | scripts/model_building.py:78-79 | for kd > 0 and y ≥ 0, the quadratic vanishes exactly when x = y + ptot·y/(kd+y) |
| Binding.OneBindAllSolvesMassBalance | scripts/model_building.py:75-80 | at every non-negative total, the prediction is in [0, x] and satisfies the one-site mass balance |
| Binding.CubicLayouts | model_building.py:65-68 | the descending list [1, b, c, d] is the reverse of the ascending row [d, c, b, 1], both give the same polynomial, and the leading coefficient is 1 |
| Binding.CubicRootIsMassBalance | model_building.py:65-67 | for positive kd1, kd2 and y ≥ 0, the cubic vanishes at y exactly when x = y + p1·y/(kd1+y) + p2·y/(kd2+y) |
| Binding.CubicFactorisation | scripts/model_building.py:102-104 | the cubic at y equals −(kd1+y)(kd2+y) times the gap between x and the two-site total at y |
| Bootstrap.SortSpec | model_building.py:129 | the column sort gives a sorted permutation of the column |
| Bootstrap.SortOfSorted | model_building.py:129 | sorting an already sorted column changes nothing |
| Bootstrap.SortCounts | model_building.py:129 | sorting keeps how many entries lie below and above any value |
| Bootstrap.BandSpec | model_building.py:133-134 | at every point, row 25 ≤ row 975 of the sorted stack; both values occur in the column; at most 25 entries lie below the low band and at most 24 above the high band |
| Bootstrap.VarianceNonNegative | model_building.py:131-132 | the population variance under `np.std` is ≥ 0, and with a sound square root std² = variance |
| Bootstrap.VarianceZeroIffConstant | model_building.py:131-132 | the variance is 0 exactly when all entries are equal |
| DataTable.Numbers | scripts/model_building.py:116-117 | a column converts exactly when every cell is numeric, and then holds the cells' values in order |
| DataTable.Convert | scripts/model_building.py:115-120 | a successful conversion gives two columns of one entry per data row |
| DataTable.ConvertReadsCells | scripts/model_building.py:115-120 | the data convert exactly when they exist and every total and free cell is numeric; x and y then hold those values |
| MultiStart.TrackNoneEligible | scripts/model_building.py:152-162 | when no run is eligible, best_fun keeps its sentinel and best_params stays all zeros |
| MultiStart.TrackFindsEarliestMinimum | scripts/model_building.py:154-162 | with some eligible run, the kept run has the least cost among eligible runs and comes first among those of that cost (strict `<` keeps the earlier run on a tie) |
| MultiStart.TrackWinner | scripts/model_building.py:154-162 | the same, naming the index of the kept run |
| MultiStart.CeilingRejectsCostly | model_building.py:144-151 | when every run costs 10000 or more, the ceiling rule keeps 10000 and zeros |
| MultiStart.NegativeCostIsOverwritten | scripts/model_building.py:160 | whenever the kept `best_fun` is negative (the −1 sentinel, or a successful run of negative cost), the next successful run is kept whatever its cost |
| MultiStart.TrackLength | scripts/model_building.py:152-162 | best_params has k entries when every run point has k |
| MultiStart.Runs | scripts/model_building.py:157-158 | one L-BFGS-B run per start, in start order |
| MultiStart.RunsKeepDimension | scripts/model_building.py:157-158 | every run point has its start's dimension |
| MultiStart.BestOfStarts | scripts/model_building.py:152-162 | the loop's final best_fun and best_params are the tracked best over the runs in order |
| Polynomial.LayoutsAgree | model_building.py:68 | Horner's rule on the reversed coefficients gives the ascending-degree value |
| Polynomial.SpecialCompanionIsMonicCompanion | root_eater.cpp:65-76 | with leading coefficient 1, the un-normalised matrix equals the normalised one and reads only the first num_roots entries of the row |
| Polynomial.CompanionEigenvector | root_eater.cpp:21-33 | the vector of powers of y is a left eigenvector for y exactly when y is a root of the row's polynomial |
| Polynomial.CompanionEigenvaluesAreRoots | root_eater.cpp:21-33 | a real y is an eigenvalue of the normalised companion matrix exactly when it is a root of the row's polynomial |
| Residuals.DividedResidual | scripts/model_building.py:64-73 | defined exactly for weight types 0 to 3 (any other falls off the if-chain and returns None); with no weighting it is the plain sum of squared residuals |
| Residuals.ScaledResidual | model_building.py:32-39 | defined exactly for weight types 0 to 2 (any other leaves `residuals` unbound); never negative; with no weighting it is the plain sum of squared residuals |
| Residuals.DividedResidualNonNegative | scripts/model_building.py:85-94 | with positive totals, every scripts weighting is defined and ≥ 0 |
| Residuals.ScaledResidualNonNegative | model_building.py:51-58 | with non-zero totals, every top-level weighting is defined and ≥ 0 |
| Residuals.ScaledIsDividedTwice | model_building.py:36-38 | scaling by 1/x^k before squaring is dividing the square by x^(2k) |
| Residuals.WeightingsCompared | model_building.py:32-39 | top-level weight 0 is scripts weight 0, top-level weight 1 is scripts weight 2, and top-level weight 2 is Σr²/x⁴ |
| RootEaterC.OverwriteIsCompanionIff | root_eater.c:21-30 | the matrix the loops leave is the companion matrix exactly when the storage was zero at every entry the loops do not write |
| RootEaterC.OverwriteTwice | root_eater.c:19-30 | a later row's pass rewrites every entry an earlier pass wrote, so the matrix depends only on the original storage and the last row |
| RootEaterC.FillCompanionC | root_eater.c:21-30 | after the nested loops, the written entries follow the two separate `if`s and every other entry keeps its old value |
| RootEaterC.FillRowC | root_eater.c:23-29 | one pass of the inner loop updates one matrix row and leaves the others |
| RootEaterC.LastColumnValue | root_eater.c:28 | the last-column entry is −coef[r]/coef[num_roots], read at offset row·num_col + r |
| RootEaterC.FindRoots | root_eater.c:11-41 | the block of 2·num_roots outputs per row interleaves the eigenvalues of the matrix the loops leave in the uninitialised storage; later entries are unchanged |
| RootEaterC.RowLoop | root_eater.c:19-40 | after the row loop the output and the storage are those of all rows processed in order |
| RootEaterC.FindRootsOfRow | root_eater.c:21-39 | one row extends the output by its interleaved eigenvalues and leaves the storage as that row's pass left it |
| RootEaterC.UnwrittenEntryObserved | root_eater.c:21-30 | storage holding 7.0 survives at entry (0,0) of a 2-by-2 matrix, where the companion matrix has 0 |
| RootEaterCpp.RowEntry | root_eater.cpp:28 | entry k of coefficient row i is buffer offset i·num_col + k |
| RootEaterCpp.FillCompanion | root_eater.cpp:21-32 | the filled matrix is the companion matrix of the row: 1 on the subdiagonal, −coef[r] (divided by coef[num_roots] in `find_roots`) in the last column, 0 elsewhere |
| RootEaterCpp.FillCompanionRow | root_eater.cpp:23-31 | one pass of the inner loop fills one matrix row and leaves the others |
| RootEaterCpp.CompanionValue | root_eater.cpp:25-30 | the value assigned to entry (r, c) is the companion entry |
| RootEaterCpp.LayoutPosition | root_eater.cpp:35-39 | root j of row i sits at 2·i·num_roots + 2j (real part) and + 1 (imaginary part) |
| RootEaterCpp.FindRoots | root_eater.cpp:13-41 | num_roots = num_col − 1; the output is the interleaved eigenvalues of every row's normalised companion matrix, row by row, and nothing past the last block changes |
| RootEaterCpp.FindRootsOfRow | root_eater.cpp:21-39 | one row extends the output by exactly its own block |
| RootEaterCpp.WriteBlock | root_eater.cpp:35-39 | the inner output loop writes exactly the row's 2·num_roots entries, interleaved |
| RootEaterCpp.Pick | root_eater.cpp:78-87 | the selection ends on the carried-in index or on an index of the row |
| RootEaterCpp.SelectRoot | root_eater.cpp:78-87 | the loop's best_match and smallest value are those of the selection rule |
| RootEaterCpp.BestMatchSpec | root_eater.cpp:78-87 | with no root of positive real part and absolute imaginary part below 1, the carried index survives; otherwise the chosen root has the least absolute imaginary part among positive-real roots and every earlier such root has a strictly larger one |
| RootEaterCpp.SinglePositiveRealRootChosen | root_eater.cpp:79-87 | when exactly one positive-real root is real, that root is chosen |
| RootEaterCpp.Carried | root_eater.cpp:61 | the carried best_match is always an index below num_roots |
| RootEaterCpp.Selected | root_eater.cpp:88 | exactly one output value per row |
| RootEaterCpp.SelectedAt | root_eater.cpp:63-88 | output i is the real part at the index chosen for row i, starting from the index row i − 1 left |
| RootEaterCpp.StaleBestMatch | root_eater.cpp:61-88 | a row with no candidate root reports the real part at the previous row's index, or at index 0 for the first row |
| RootEaterCpp.SelectedSinglePositiveRoot | root_eater.cpp:79-88 | a row whose only real positive root is unique reports that root |
| RootEaterCpp.SinglePosSpecial | root_eater.cpp:61-89 | output i is the selected real part for row i; nothing past num_rows changes |
| RootEaterCpp.SelectInRow | root_eater.cpp:65-88 | one row writes exactly its own slot and carries its index on |
| RootEaterCpp.SelectionStep | root_eater.cpp:84-88 | one more row appends its selected real part and makes its choice the carried index |
| RootEaterCpp.SinglePosSpecialCubic | root_eater.cpp:55-90 | the shared rule with three roots per row |
| RootEaterCpp.SinglePosSpecialQuartic | root_eater.cpp:103-138 | the shared rule with four roots per row |
| ScriptsModelBuilding.ParamCount | scripts/model_building.py:39-40 | 2 parameters for one site, 4 for two |
| ScriptsModelBuilding.NamesCount | scripts/model_building.py:39-40 | the associated-name lists have 2 and 4 names |
| ScriptsModelBuilding.NamesHaveSlots | scripts/model_building.py:34-35 | every associated name has a slot below 4 |
| ScriptsModelBuilding.SlotIsPosition | scripts/model_building.py:34-40 | the j-th associated name's slot is j |
| ScriptsModelBuilding.PlacedPrefix | scripts/model_building.py:165-167 | after the reset and placement, slot i holds winner[i] for i < k and 0 for every unused slot |
| ScriptsModelBuilding.CoefficientRows | scripts/model_building.py:100-104 | coefficient row i is [d, c, b, 1] at x[i] in ascending degree, so the leading coefficient is 1 |
| ScriptsModelBuilding.SetColumn | scripts/model_building.py:101-104 | a column write changes only that column of every row |
| ScriptsModelBuilding.ColumnsBuildBuffer | scripts/model_building.py:100-104 | the four column writes onto zeros give the row-major coefficient buffer |
| ScriptsModelBuilding.TwoBind | scripts/model_building.py:97-107 | the prediction array is what `single_pos_special_cubic` writes for the coefficient rows |
| ScriptsModelBuilding.TwoBindSolvesMassBalance | scripts/model_building.py:97-107 | when the selected eigenvalue is real and non-negative, the prediction is ≥ 0 and satisfies the two-site mass balance |
| ScriptsModelBuilding.StartGrid | scripts/model_building.py:144-150 | every grid start has one entry per model parameter |
| ScriptsModelBuilding.StartGridOneSite | scripts/model_building.py:145-150 | 3×3 = 9 one-site starts, in ParameterGrid's order |
| ScriptsModelBuilding.StartGridTwoSite | scripts/model_building.py:147-150 | 3⁴ = 81 two-site starts, in ParameterGrid's order of sorted names |
| ScriptsModelBuilding.StartsWithinBounds | scripts/model_building.py:144-151 | every grid start satisfies its bounds |
| ScriptsModelBuilding.GridSearchKeepsEarliestMinimum | scripts/model_building.py:152-162 | when some run succeeds, the winner is the earliest successful run of least cost |
| ScriptsModelBuilding.GridSearchNoSuccess | scripts/model_building.py:143-167 | when no run succeeds, the winner and the placed parameters are all zeros |
| ScriptsModelBuilding.OneSitePredictionsSolveMassBalance | scripts/model_building.py:54-55 | one-site predictions lie in [0, x] and satisfy the one-site mass balance |
| ScriptsModelBuilding.CalcErrorRejectsNegativeCovariance | scripts/model_building.py:178-181 | once the inverse exists, the ill-posed message comes back exactly when some entry, off-diagonal included, is negative, and then neither errors nor AIC change |
| ScriptsModelBuilding.AcceptedErrorsAreStandardErrors | scripts/model_building.py:172-184 | with N > k, written error i is the non-negative square root of net/(N − k)·cov[i][i] |
| ScriptsModelBuilding.StandardErrorIsSqrt | scripts/model_building.py:183-184 | with exact division and square root, each error is a true square root |
| ScriptsModelBuilding.WrittenError | scripts/model_building.py:182-184 | slot i < k holds np.sqrt of net/dof times cov[i][i], with dof = N − k |
| ScriptsModelBuilding.AcceptedAic | scripts/model_building.py:173-185 | an accepted covariance returns '0' with AIC = net + 2k + 2k(k+1)/(N−k−1), except that N = k + 1 raises |
| ScriptsModelBuilding.AicPenalisesTwoSites | scripts/model_building.py:185 | with more than five points, the two-site AIC penalty exceeds the one-site penalty |
| ScriptsModelBuilding.ProtbindModel.constructor | scripts/model_building.py:32-48 | parameters and errors start as zeros, AIC as 0, and the data and predictions as absent |
| ScriptsModelBuilding.ProtbindModel.MakePreds | scripts/model_building.py:52-59 | `(0, 'err')` exactly when the data or the spanning grid is missing; nothing for an unknown model; otherwise the model's predictions with '0' |
| ScriptsModelBuilding.ProtbindModel.GridSearch | scripts/model_building.py:142-168 | returns normally exactly for a known model and weight type 0 to 3; the parameters are then the placed winner, and zeros otherwise |
| ScriptsModelBuilding.ProtbindModel.CalcError | scripts/model_building.py:171-192 | the outcome, errors and AIC are `calc_error`'s report on the fitted parameters |
| ScriptsModelBuilding.ProtbindModel.Report | scripts/model_building.py:179-192 | the rejection, the error loop and the AIC once the residual and the inverse are known |
| ScriptsModelBuilding.ProtbindModel.WriteErrors | scripts/model_building.py:182-184 | the first k error slots get their standard errors and the rest keep their values |
| ScriptsModelBuilding.ProtbindModel.ModelFit | scripts/model_building.py:114-133 | the conversion message with nothing changed when the data do not convert; a raise with nothing changed for unusable totals; otherwise the spanning grid is set and the fit follows the fit specification |
| ScriptsModelBuilding.ProtbindModel.Fit | scripts/model_building.py:125-133 | the unknown-model raise, the weight-type raise after the reset, or placement, predictions, stored data and error report |
| ScriptsModelBuilding.ProtbindModel.SearchAndFinish | scripts/model_building.py:125-133 | for a known model, the weight-type raise after the reset, or placement, predictions, stored data and the error report, as the fit specification gives them |
| ScriptsModelBuilding.ProtbindModel.Finish | scripts/model_building.py:127-133 | stores the predictions on the spanning grid and the observed data, then takes the error report |
| ModelBuilding.KeptIndex | model_building.py:68-70 | the index of the first root that is real and ≥ 0, or none exactly when no root is |
| ModelBuilding.TwoBind | model_building.py:60-71 | the loop predicts the first kept root at every total, or raises at the first total without one |
| ModelBuilding.TwoBindSolvesMassBalance | model_building.py:60-71 | with positive kd1, kd2 and sound roots, every prediction is ≥ 0 and satisfies the two-site mass balance |
| ModelBuilding.TwoBindRaisesWithoutRoot | model_building.py:68-70 | `twobind` raises exactly when some total's cubic has no real non-negative root |
| ModelBuilding.OneSiteKeepsEarliestMinimum | model_building.py:103-112 | with a successful run, the one-site winner is the earliest successful run of least cost |
| ModelBuilding.TwoSiteKeepsEarliestMinimum | model_building.py:143-151 | with a successful run under 10000, the two-site winner is the earliest such run of least cost |
| ModelBuilding.TwoSiteCeilingKeepsZeros | model_building.py:143-151 | when every run costs 10000 or more, the two-site winner is all zeros |
| ModelBuilding.ResampleKeepsPairs | model_building.py:122-123 | `x[current_cases]` and `y[current_cases]` draw whole observations: the j-th resampled total and free concentration are one observed pair |
| ModelBuilding.ResampleNonZero | model_building.py:122-123 | resampling non-zero totals gives non-zero totals |
| ModelBuilding.BootstrapRefits | model_building.py:120-130 | the parameter stack holds one refit per draw from the winner, and the prediction stack holds their curves on the spanning grid |
| ModelBuilding.BootstrapErrorIsSpread | model_building.py:131-132 | each bootstrap error is ≥ 0, squares to the column's variance, and is 0 exactly when all refits agree |
| ModelBuilding.BandsBracketRefits | model_building.py:129-134 | low band ≤ high band at every point, both are refit values, and at most 25 refits lie below and at most 24 above |
| ModelBuilding.OneSiteFitFrame | model_building.py:99-134 | returns normally exactly for weight types 0 to 2, writes nothing when it raises, changes only kd1 and p1, and keeps errors and bands for error types other than 0 and 1 |
| ModelBuilding.TwoSiteFitFrame | model_building.py:137-176 | returns normally exactly for weight types 0 to 2 with error type not 1; never changes errors or bands; changes only kd1, kd2, p1, p2 |
| ModelBuilding.FitOutcomeCodes | model_building.py:90-96 | raises exactly for a bad weight type of a one- or two-site fit or the two-site bootstrap; otherwise '0', and model types other than 0 and 1 change nothing |
| ModelBuilding.OneSiteCurveSolvesMassBalance | model_building.py:113-115 | the stored one-site curve solves the mass balance of the stored kd1 and p1 at every grid point |
| ModelBuilding.TwoSiteCurveIsOneSiteInKd2 | model_building.py:154-158 | the stored two-site curve is the one-site curve with kd1 as kd and kd2 as ptot |
| ModelBuilding.OneSiteErrorsAreSpread | model_building.py:119-132 | the bootstrap writes exactly the kd1 and p1 errors, each a non-negative spread of its refit column |
| ModelBuilding.OneSiteBandsBracketRefits | model_building.py:119-134 | the stored bands span the spanning grid and bracket the refit curves pointwise |
| ModelBuilding.ProtbindModel.constructor | model_building.py:12-27 | the initial parameter and error dictionaries and unset data, curve and bands |
| ModelBuilding.ProtbindModel.ModelFit | model_building.py:77-96 | the conversion message with nothing changed; a raise with nothing changed for unusable totals; otherwise the spanning grid is set and the dispatch follows `FitOutcome` |
| ModelBuilding.ProtbindModel.Dispatch | model_building.py:90-96 | the dispatch on the model type |
| ModelBuilding.ProtbindModel.OneBindSiteFitter | model_building.py:99-134 | the new state is the one-site fit of the old state |
| ModelBuilding.ProtbindModel.StoreBands | model_building.py:129-134 | stores the kd1 and p1 spreads and rows 25 and 975 of the sorted curves |
| ModelBuilding.ProtbindModel.TwoBindSiteFitter | model_building.py:137-176 | the new state is the two-site fit of the old state |
| ModelBuilding.ProtbindModel.ThreeBindSiteFitter | model_building.py:178-179 | returns the "not offered yet" message |

## Left out

- ModelBuilding.ProtbindModel.constructor and ScriptsModelBuilding.ProtbindModel.constructor: Dafny has no default arguments, so `model_type`, `weight_type` and `error_type`, which default to 0 in both `__init__`s, are always passed; a caller wanting the defaults passes (0, 0, 0).
- Floating point: all arithmetic is over `real`, so rounding, inf and nan are not modelled. The float division by the degrees of freedom is the opaque `quotient`, which also covers N = k.
- Numeric libraries: L-BFGS-B, numdifftools' Hessian, `np.linalg.inv`, `np.linalg.eig`, `np.roots`, Eigen's `eigenvalues()` and `np.sqrt` are opaque functions. Only the named assumptions are made about them: one eigenvalue per row, kept dimension, square inverse, sound sqrt, exact quotient, sound roots, and reported `fun` equal to the cost.
- Randomness: the random start points (model_building.py:100-102 and 138-142) and the bootstrap case draws (model_building.py:122) are inputs rather than generated.
- The log-spaced prediction grid (`np.exp(np.arange(np.log(min), np.log(max), 0.1))`) is the opaque `spanningRange`. Totals that are empty, zero or negative are modelled as raising there.
- The ill-conditioning alert (scripts/model_building.py:177 and 186-191): an eigenvalue ratio in floats that shows a GUI pop-up and changes no state.
- `print` calls and progress messages produce output only.
- The ctypes loading of `rootfinder.so` (scripts/model_building.py:14-25) is plumbing; the C routines are modelled directly.
- `current_dataset`, `plot_color` and `plot_title` are never read by the core.
- `self.weights` (model_building.py:81-86) is written but never read by the fit.
- ModelBuilding.TwoSiteFit: the two-site bootstrap (model_building.py:161-176) is only a raise after the placement. It passes a four-entry start with two bounds to L-BFGS-B, whose reaction is library behaviour.
- ModelBuilding.TwoSiteFit: an `IndexError` raised by `twobind` inside a minimisation is not modelled; `minimize` always returns a run. Such an error occurs for a total whose cubic has no real non-negative root.
- DataTable.Convert: the data are rows of total and free cells. A data frame missing either column is not modelled.
- The C `int` arithmetic of the offsets `input_row*num_col` is over unbounded integers; overflow is not modelled.
- Complex arithmetic inside Eigen is not modelled; eigenvalues are pairs of reals.
- pb_fitter.py, plotting.py, progress_Bar.py and pk_calc.py are not part of this model (GUI, plotting, file I/O).

## Findings

| source | as written | input that shows it | evidently intended | confidence | as-written member | corrected member |
|---|---|---|---|---|---|---|
| root_eater.c:21-30 | two separate `if`s with no `else`, so entries neither on the subdiagonal nor in the last column are left as the uninitialised `Eigen::MatrixXd` storage holds them | a 2-by-2 matrix whose storage holds 7.0: entry (0,0) stays 7.0, where the companion matrix has 0 | every other entry set to 0.0, as root_eater.cpp:29-30 does | not executed | RootEaterC.FindRoots, RootEaterC.UnwrittenEntryObserved | RootEaterCpp.FindRoots |
