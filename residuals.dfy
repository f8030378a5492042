/** The weighted residual objectives of the two protbind_model versions.
    The version under scripts/ divides each squared residual by a power of the
    total concentration; the top-level version scales the residual by the
    weight before squaring, so the same weight number means a different
    objective in the two files. */
module Residuals {
  import opened Numerics

  predicate NonZero(x: seq<real>) {
    forall i :: 0 <= i < |x| ==> x[i] != 0.0
  }

  predicate Positive(x: seq<real>) {
    forall i :: 0 <= i < |x| ==> x[i] > 0.0
  }

  lemma PowNonZero(v: real, k: nat)
    requires v != 0.0
    ensures Pow(v, k) != 0.0
  {
    if k > 0 {
      PowNonZero(v, k - 1);
    }
  }

  lemma {:induction false} PowPositive(v: real, k: nat)
    requires v > 0.0
    ensures Pow(v, k) > 0.0
    decreases k
  {
    if k > 0 {
      PowPositive(v, k - 1);
      assert v * Pow(v, k - 1) > 0.0;
    }
  }

  /** `predicted - actual`, element by element. */
  function Differences(predicted: seq<real>, actual: seq<real>): (d: seq<real>)
    requires |predicted| == |actual|
    ensures |d| == |predicted|
  {
    seq(|predicted|, i requires 0 <= i < |predicted| => predicted[i] - actual[i])
  }

  /** One term of the scripts/ objective: r*r*1/x**k, or r*r for no weighting. */
  function DividedTerm(r: real, x: real, k: nat): real
    requires k > 0 ==> x != 0.0
  {
    if k == 0 then r * r
    else PowNonZero(x, k); r * r / Pow(x, k)
  }

  /** Sum over the points of r_i^2 / x_i^k. */
  function DividedSum(r: seq<real>, x: seq<real>, k: nat): real
    requires |r| == |x| && (k > 0 ==> NonZero(x))
  {
    if |r| == 0 then 0.0
    else DividedSum(r[..|r| - 1], x[..|x| - 1], k) + DividedTerm(r[|r| - 1], x[|x| - 1], k)
  }

  /** One term of the top-level objective: (r*1/x**k)^2, or r^2 for no weighting. */
  function ScaledTerm(r: real, x: real, k: nat): real
    requires k > 0 ==> x != 0.0
  {
    if k == 0 then r * r
    else PowNonZero(x, k); (r / Pow(x, k)) * (r / Pow(x, k))
  }

  /** np.dot of the scaled residuals with themselves. */
  function ScaledSum(r: seq<real>, x: seq<real>, k: nat): real
    requires |r| == |x| && (k > 0 ==> NonZero(x))
  {
    if |r| == 0 then 0.0
    else ScaledSum(r[..|r| - 1], x[..|x| - 1], k) + ScaledTerm(r[|r| - 1], x[|x| - 1], k)
  }

  /** The unweighted objective: the plain sum of squared residuals. */
  function SumOfSquares(r: seq<real>): real {
    if |r| == 0 then 0.0 else r[0] * r[0] + SumOfSquares(r[1..])
  }

  /** Both weightings with weight 0 are the sum of squared residuals. */
  lemma {:induction false} DividedUnweighted(r: seq<real>, x: seq<real>)
    requires |r| == |x|
    ensures DividedSum(r, x, 0) == SumOfSquares(r)
    decreases |r|
  {
    if |r| > 0 {
      var n := |r| - 1;
      DividedUnweighted(r[..n], x[..n]);
      SumOfSquaresSnoc(r[..n], r[n]);
      assert r[..n] + [r[n]] == r;
    }
  }

  lemma {:induction false} ScaledUnweighted(r: seq<real>, x: seq<real>)
    requires |r| == |x|
    ensures ScaledSum(r, x, 0) == SumOfSquares(r)
    decreases |r|
  {
    if |r| > 0 {
      var n := |r| - 1;
      ScaledUnweighted(r[..n], x[..n]);
      SumOfSquaresSnoc(r[..n], r[n]);
      assert r[..n] + [r[n]] == r;
    }
  }

  lemma {:induction false} SumOfSquaresSnoc(r: seq<real>, v: real)
    ensures SumOfSquares(r + [v]) == SumOfSquares(r) + v * v
    decreases |r|
  {
    if |r| > 0 {
      assert (r + [v])[1..] == r[1..] + [v];
      SumOfSquaresSnoc(r[1..], v);
    }
  }

  /** `onebind_resid` / `twobind_resid` of scripts/model_building.py given the
      model's predictions: weight type 0, 1, 2, 3 gives the sum of r^2,
      r^2/x, r^2/x^2, r^2/x^3; any other weight type falls off the if-chain
      and the function returns None. */
  function DividedResidual(predicted: seq<real>, actual: seq<real>, x: seq<real>, weightType: int): (r: Option<real>)
    requires |predicted| == |actual| == |x|
    requires 1 <= weightType <= 3 ==> NonZero(x)
    ensures r.Some? <==> 0 <= weightType <= 3
    ensures weightType == 0 ==> r == Some(SumOfSquares(Differences(predicted, actual)))
  {
    if 0 <= weightType <= 3 then
      var d := Differences(predicted, actual);
      DividedUnweighted(d, x);
      Some(DividedSum(d, x, weightType as nat))
    else None
  }

  /** `onebind_resid` / `twobind_resid` of the top-level model_building.py:
      weight type 0, 1, 2 multiplies the residuals by 1, 1/x, 1/x^2 and
      returns their dot product; any other weight type leaves `residuals`
      unbound and the call raises, modelled as None. */
  function ScaledResidual(predicted: seq<real>, actual: seq<real>, x: seq<real>, weightType: int): (r: Option<real>)
    requires |predicted| == |actual| == |x|
    requires 1 <= weightType <= 2 ==> NonZero(x)
    ensures r.Some? <==> 0 <= weightType <= 2
    ensures r.Some? ==> r.value >= 0.0
    ensures weightType == 0 ==> r == Some(SumOfSquares(Differences(predicted, actual)))
  {
    if 0 <= weightType <= 2 then
      var d := Differences(predicted, actual);
      ScaledSumNonNegative(d, x, weightType as nat);
      ScaledUnweighted(d, x);
      Some(ScaledSum(d, x, weightType as nat))
    else None
  }

  /** Every scripts/ objective is non-negative when every total is positive. */
  lemma {:induction false} DividedSumNonNegative(r: seq<real>, x: seq<real>, k: nat)
    requires |r| == |x| && Positive(x)
    ensures DividedSum(r, x, k) >= 0.0
    decreases |r|
  {
    if |r| > 0 {
      var n := |r| - 1;
      assert Positive(x[..n]);
      DividedSumNonNegative(r[..n], x[..n], k);
      if k > 0 {
        PowPositive(x[n], k);
        DividedTermNonNegative(r[n], Pow(x[n], k));
      }
    }
  }

  lemma DividedTermNonNegative(r: real, p: real)
    requires p > 0.0
    ensures r * r / p >= 0.0
  {
    assert r * r >= 0.0;
  }

  lemma DividedResidualNonNegative(predicted: seq<real>, actual: seq<real>, x: seq<real>, weightType: int)
    requires |predicted| == |actual| == |x| && Positive(x) && 0 <= weightType <= 3
    ensures DividedResidual(predicted, actual, x, weightType).Some?
    ensures DividedResidual(predicted, actual, x, weightType).value >= 0.0
  {
    DividedSumNonNegative(Differences(predicted, actual), x, weightType as nat);
  }

  /** The top-level objectives are sums of squares, so they are never
      negative, whatever the sign of the totals. */
  lemma {:induction false} ScaledSumNonNegative(r: seq<real>, x: seq<real>, k: nat)
    requires |r| == |x| && (k > 0 ==> NonZero(x))
    ensures ScaledSum(r, x, k) >= 0.0
    decreases |r|
  {
    if |r| > 0 {
      var n := |r| - 1;
      assert k > 0 ==> NonZero(x[..n]);
      ScaledSumNonNegative(r[..n], x[..n], k);
      if k > 0 {
        PowNonZero(x[n], k);
        var q := r[n] / Pow(x[n], k);
        assert q * q >= 0.0;
      } else {
        assert r[n] * r[n] >= 0.0;
      }
    }
  }

  lemma ScaledResidualNonNegative(predicted: seq<real>, actual: seq<real>, x: seq<real>, weightType: int)
    requires |predicted| == |actual| == |x| && NonZero(x) && 0 <= weightType <= 2
    ensures ScaledResidual(predicted, actual, x, weightType).Some?
    ensures ScaledResidual(predicted, actual, x, weightType).value >= 0.0
  {
    ScaledSumNonNegative(Differences(predicted, actual), x, weightType as nat);
  }

  lemma {:induction false} PowDouble(v: real, k: nat)
    ensures Pow(v, 2 * k) == Pow(v, k) * Pow(v, k)
    decreases k
  {
    if k > 0 {
      PowDouble(v, k - 1);
      assert Pow(v, 2 * k) == v * (v * Pow(v, 2 * (k - 1)));
    }
  }

  /** (r/p)^2 == r^2/s for s == p^2; s is passed separately, with its own
      non-zero fact, to keep the solver's non-linear reasoning small. */
  lemma SquareOverSquare(r: real, p: real, s: real)
    requires p != 0.0 && s != 0.0 && s == p * p
    ensures (r / p) * (r / p) == r * r / s
  {
    QuotientTimes(r, p);
    SquareOfProduct(r / p, p, r);
    QuotientUnique(r * r, s, (r / p) * (r / p));
  }

  lemma QuotientTimes(a: real, b: real)
    requires b != 0.0
    ensures (a / b) * b == a
  {
  }

  lemma SquareOfProduct(q: real, p: real, r: real)
    requires q * p == r
    ensures (q * q) * (p * p) == r * r
  {
    assert (q * q) * (p * p) == (q * p) * (q * p);
  }

  lemma QuotientUnique(a: real, b: real, z: real)
    requires b != 0.0 && z * b == a
    ensures a / b == z
  {
  }

  /** Scaling the residual by 1/x^k before squaring is dividing its square by
      x^(2k): the top-level weight k is the scripts/ weighting by x^(2k). */
  lemma {:induction false} ScaledIsDividedTwice(r: seq<real>, x: seq<real>, k: nat)
    requires |r| == |x| && NonZero(x)
    ensures ScaledSum(r, x, k) == DividedSum(r, x, 2 * k)
    decreases |r|
  {
    if |r| > 0 {
      var n := |r| - 1;
      assert NonZero(x[..n]);
      ScaledIsDividedTwice(r[..n], x[..n], k);
      if k > 0 {
        PowNonZero(x[n], k);
        PowNonZero(x[n], 2 * k);
        PowDouble(x[n], k);
        SquareOverSquare(r[n], Pow(x[n], k), Pow(x[n], 2 * k));
        assert ScaledTerm(r[n], x[n], k) == DividedTerm(r[n], x[n], 2 * k);
      }
    }
  }

  /** The weight numbers of the two files mean different objectives: no
      weighting agrees, the top-level "1/C" weight is the scripts/ "1/C^2"
      weight, and the top-level "1/C^2" weight divides by x^4, which the
      scripts/ version does not offer. */
  lemma WeightingsCompared(predicted: seq<real>, actual: seq<real>, x: seq<real>)
    requires |predicted| == |actual| == |x| && NonZero(x)
    ensures ScaledResidual(predicted, actual, x, 0) == DividedResidual(predicted, actual, x, 0)
    ensures ScaledResidual(predicted, actual, x, 1) == DividedResidual(predicted, actual, x, 2)
    ensures ScaledResidual(predicted, actual, x, 2) == Some(DividedSum(Differences(predicted, actual), x, 4))
  {
    var d := Differences(predicted, actual);
    ScaledIsDividedTwice(d, x, 0);
    ScaledIsDividedTwice(d, x, 1);
    ScaledIsDividedTwice(d, x, 2);
  }
}
