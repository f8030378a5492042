/** The multi-start loop every fitter runs: minimise from each start point
    and keep the best successful run. The two model_building files differ
    in the sentinel and in how they test a run:
    - `grid_search` (scripts/) and `onebindsite_fitter` start from -1 and
      accept a successful run when nothing has been kept yet (the sentinel is
      negative) or when its cost is strictly lower;
    - `twobindsite_fitter` starts from 10000 and accepts a successful run
      only when its cost is strictly below the kept one, so a run costing
      10000 or more is never kept. */
module MultiStart {
  import opened Numerics

  datatype Rule = FirstSuccess | Ceiling

  function InitialFun(rule: Rule): real {
    match rule
    case FirstSuccess => -1.0
    case Ceiling => 10000.0
  }

  /** The test of the loop body. */
  predicate Accepts(rule: Rule, bestFun: real, run: Run) {
    match rule
    case FirstSuccess => run.success && (bestFun < 0.0 || run.fun < bestFun)
    case Ceiling => run.fun < bestFun && run.success
  }

  /** `best_fun` and `best_params`. */
  datatype Best = Best(fun: real, params: seq<real>)

  /** The loop over the runs in order, from `best_params = zeros(k)`. */
  function Track(runs: seq<Run>, rule: Rule, k: nat): Best {
    if |runs| == 0 then Best(InitialFun(rule), Zeros(k))
    else
      var b := Track(runs[..|runs| - 1], rule, k);
      var run := runs[|runs| - 1];
      if Accepts(rule, b.fun, run) then Best(run.fun, run.x) else b
  }

  /** A run the loop can keep at all. */
  predicate Eligible(rule: Rule, run: Run) {
    match rule
    case FirstSuccess => run.success
    case Ceiling => run.success && run.fun < 10000.0
  }

  /** Run i is the earliest of the runs with the lowest cost among the eligible. */
  predicate EarliestMinimum(runs: seq<Run>, rule: Rule, i: nat) {
    i < |runs| && Eligible(rule, runs[i])
    && (forall j :: 0 <= j < |runs| && Eligible(rule, runs[j]) ==> runs[i].fun <= runs[j].fun)
    && (forall j :: 0 <= j < i && Eligible(rule, runs[j]) ==> runs[i].fun < runs[j].fun)
  }

  /** Costs of successful runs are never negative (the residuals are sums of
      squares over positive totals). */
  predicate SuccessfulCostsNonNegative(runs: seq<Run>) {
    forall j :: 0 <= j < |runs| && runs[j].success ==> runs[j].fun >= 0.0
  }

  /** With no eligible run the sentinel and the zero vector survive. */
  lemma {:induction false} TrackNoneEligible(runs: seq<Run>, rule: Rule, k: nat)
    requires forall j :: 0 <= j < |runs| ==> !Eligible(rule, runs[j])
    ensures Track(runs, rule, k) == Best(InitialFun(rule), Zeros(k))
    decreases |runs|
  {
    if |runs| > 0 {
      TrackNoneEligible(runs[..|runs| - 1], rule, k);
    }
  }

  /** The loop keeps the earliest of the cheapest eligible runs: unsuccessful
      runs are ignored and, the comparison being strict, a later run of equal
      cost does not replace an earlier one. For the -1 sentinel this needs
      successful costs to be non-negative. */
  lemma TrackFindsEarliestMinimum(runs: seq<Run>, rule: Rule, k: nat)
    requires exists j :: 0 <= j < |runs| && Eligible(rule, runs[j])
    requires rule == FirstSuccess ==> SuccessfulCostsNonNegative(runs)
    ensures exists i: nat :: EarliestMinimum(runs, rule, i) && Track(runs, rule, k) == Best(runs[i].fun, runs[i].x)
  {
    var i := TrackWinner(runs, rule, k);
  }

  lemma {:induction false} TrackWinner(runs: seq<Run>, rule: Rule, k: nat) returns (i: nat)
    requires exists j :: 0 <= j < |runs| && Eligible(rule, runs[j])
    requires rule == FirstSuccess ==> SuccessfulCostsNonNegative(runs)
    ensures EarliestMinimum(runs, rule, i) && Track(runs, rule, k) == Best(runs[i].fun, runs[i].x)
    decreases |runs|
  {
    var n := |runs| - 1;
    var front := runs[..n];
    var last := runs[n];
    assert forall j :: 0 <= j < n ==> front[j] == runs[j];
    if exists j :: 0 <= j < n && Eligible(rule, front[j]) {
      var i' := TrackWinner(front, rule, k);
      var b := Track(front, rule, k);
      assert b.fun == runs[i'].fun;
      if rule == FirstSuccess {
        assert b.fun >= 0.0;
      }
      if Accepts(rule, b.fun, last) {
        i := n;
      } else {
        i := i';
      }
    } else {
      TrackNoneEligible(front, rule, k);
      i := n;
    }
  }

  /** With the 10000 sentinel a run costing 10000 or more is never kept. */
  lemma CeilingRejectsCostly(runs: seq<Run>, k: nat)
    requires forall j :: 0 <= j < |runs| ==> runs[j].fun >= 10000.0
    ensures Track(runs, Ceiling, k) == Best(10000.0, Zeros(k))
  {
    TrackNoneEligible(runs, Ceiling, k);
  }

  /** The -1 sentinel on its own: while `best_fun` is negative, which it is
      before any run and after a successful run of negative cost, the next
      successful run replaces the kept one whatever its cost. */
  lemma NegativeCostIsOverwritten(runs: seq<Run>, run: Run, k: nat)
    requires Track(runs, FirstSuccess, k).fun < 0.0 && run.success
    ensures Track(runs + [run], FirstSuccess, k) == Best(run.fun, run.x)
  {
    assert (runs + [run])[..|runs|] == runs;
  }

  lemma {:induction false} TrackLength(runs: seq<Run>, rule: Rule, k: nat)
    requires forall j :: 0 <= j < |runs| ==> |runs[j].x| == k
    ensures |Track(runs, rule, k).params| == k
    decreases |runs|
  {
    if |runs| > 0 {
      TrackLength(runs[..|runs| - 1], rule, k);
    }
  }

  /** The runs of L-BFGS-B from each start point in turn. */
  function Runs(lib: Library, objective: Objective, starts: seq<seq<real>>, bounds: seq<Bound>): (runs: seq<Run>)
    ensures |runs| == |starts|
  {
    seq(|starts|, j requires 0 <= j < |starts| => lib.minimize(objective, starts[j], bounds))
  }

  lemma RunsKeepDimension(lib: Library, objective: Objective, starts: seq<seq<real>>, bounds: seq<Bound>, k: nat)
    requires KeepsDimension(lib.minimize)
    requires forall j :: 0 <= j < |starts| ==> |starts[j]| == k
    ensures forall j :: 0 <= j < |starts| ==> |Runs(lib, objective, starts, bounds)[j].x| == k
  {
    forall j | 0 <= j < |starts|
      ensures |Runs(lib, objective, starts, bounds)[j].x| == k
    {
      assert |lib.minimize(objective, starts[j], bounds).x| == |starts[j]|;
    }
  }

  /** The loop itself: one minimisation per start point, then the test. */
  method BestOfStarts(lib: Library, objective: Objective, starts: seq<seq<real>>, bounds: seq<Bound>, rule: Rule, k: nat)
    returns (bestFun: real, bestParams: seq<real>)
    ensures Best(bestFun, bestParams) == Track(Runs(lib, objective, starts, bounds), rule, k)
  {
    ghost var runs := Runs(lib, objective, starts, bounds);
    bestParams := Zeros(k);
    bestFun := InitialFun(rule);
    var j := 0;
    while j < |starts|
      invariant 0 <= j <= |starts|
      invariant Best(bestFun, bestParams) == Track(runs[..j], rule, k)
    {
      var ssbm := lib.minimize(objective, starts[j], bounds);
      assert runs[..j + 1][..j] == runs[..j] && runs[..j + 1][j] == ssbm;
      if Accepts(rule, bestFun, ssbm) {
        bestFun := ssbm.fun;
        bestParams := ssbm.x;
      }
      j := j + 1;
    }
    assert runs[..|starts|] == runs;
  }
}
