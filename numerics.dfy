/** Values shared by every part of the model and the foreign numeric routines
    the fitter calls, each as an opaque function.

    The program never computes a square root, an eigenvalue, a polynomial root,
    an optimiser run or a matrix inverse itself: it asks numpy, scipy,
    numdifftools or Eigen. Those answers are inputs of the model, bundled in a
    `Library` value that is threaded through every operation that uses them. */
module Numerics {

  datatype Option<T> = None | Some(value: T)

  /** A complex number as a pair of reals (Eigen's std::complex<double>,
      numpy's complex128). */
  datatype Complex = Complex(re: real, im: real)

  function Abs(v: real): real {
    if v < 0.0 then -v else v
  }

  /** `s` is the non-negative square root of `v`, as np.sqrt promises when v >= 0. */
  predicate IsSqrt(s: real, v: real) {
    s >= 0.0 && s * s == v
  }

  function Pow(v: real, k: nat): real {
    if k == 0 then 1.0 else v * Pow(v, k - 1)
  }

  /** A box constraint handed to L-BFGS-B: `(lo, None)` in the source. */
  datatype Bound = AtLeast(lo: real)

  /** What scipy.optimize.minimize returns and the fitters read: `success`, `fun`, `x`. */
  datatype Run = Run(success: bool, fun: real, x: seq<real>)

  /** The two families of residual functions: scripts/model_building.py
      divides each squared residual by a power of the total, the top-level
      model_building.py scales each residual by a power of 1/x first. */
  datatype Weighting = DividedSquares | ScaledResiduals

  /** A residual function together with the data it is evaluated on, as passed
      to minimize (`args=(x, actual)`) or to numdifftools.Hessian: the file's
      weighting, one or two binding sites, the weight type, the totals and the
      observed free concentrations. */
  datatype Objective = Objective(weighting: Weighting, sites: nat, weightType: int, x: seq<real>, actual: seq<real>)

  /** The foreign routines, as opaque functions:
      - `sqrt`: np.sqrt;
      - `eigenvalues`: Eigen's `eigenvalues()` of a square matrix given by rows;
      - `roots`: np.roots of a coefficient list in descending degree;
      - `minimize`: L-BFGS-B from a start point under bounds, on the data of the current fit;
      - `inverseHessian`: np.linalg.inv of numdifftools.Hessian at a parameter vector,
        `None` where the inversion raises;
      - `quotient`: float64 division of a residual by an integer count, which
        yields inf or nan instead of raising when the count is zero;
      - `spanningRange`: the prediction grid exp(arange(log(min x), log(max x), 0.1))
        of a non-empty vector of totals. */
  datatype Library = Library(
    sqrt: real -> real,
    eigenvalues: seq<seq<real>> -> seq<Complex>,
    roots: seq<real> -> seq<Complex>,
    minimize: (Objective, seq<real>, seq<Bound>) -> Run,
    inverseHessian: (Objective, seq<real>) -> Option<seq<seq<real>>>,
    quotient: (real, int) -> real,
    spanningRange: seq<real> -> seq<real>
  )

  /** Eigen returns one eigenvalue per row of the matrix. */
  ghost predicate OneEigenvaluePerRow(eigenvalues: seq<seq<real>> -> seq<Complex>) {
    forall m: seq<seq<real>> {:trigger eigenvalues(m)} :: |eigenvalues(m)| == |m|
  }

  /** L-BFGS-B returns a point of the same dimension as its start point. */
  ghost predicate KeepsDimension(minimize: (Objective, seq<real>, seq<Bound>) -> Run) {
    forall o, x0, b {:trigger minimize(o, x0, b)} :: |minimize(o, x0, b).x| == |x0|
  }

  /** An inverse Hessian at a k-vector is k by k. */
  ghost predicate SquareInverse(inverseHessian: (Objective, seq<real>) -> Option<seq<seq<real>>>) {
    forall o, p {:trigger inverseHessian(o, p)} :: inverseHessian(o, p).Some? ==>
      |inverseHessian(o, p).value| == |p|
      && forall i :: 0 <= i < |p| ==> |inverseHessian(o, p).value[i]| == |p|
  }

  /** np.sqrt returns the non-negative square root of every non-negative
      argument it is given. */
  ghost predicate SqrtSound(sqrt: real -> real) {
    forall v {:trigger sqrt(v)} :: v >= 0.0 ==> IsSqrt(sqrt(v), v)
  }

  /** Float division agrees with real division wherever the divisor is not zero. */
  ghost predicate ExactQuotient(quotient: (real, int) -> real) {
    forall a, n {:trigger quotient(a, n)} :: n != 0 ==> quotient(a, n) == a / (n as real)
  }

  lemma ZeroProduct(a: real, b: real)
    requires a != 0.0
    ensures a * b == 0.0 <==> b == 0.0
  {
  }

  /** Column c of a matrix or stack given by rows. */
  function Column(m: seq<seq<real>>, c: nat): seq<real>
    requires forall r :: 0 <= r < |m| ==> c < |m[r]|
  {
    seq(|m|, r requires 0 <= r < |m| => m[r][c])
  }

  /** `[(lo, None)] * k`: the same lower bound on each of k parameters. */
  function LowerBounds(k: nat, lo: real): seq<Bound>
  {
    seq(k, _ => AtLeast(lo))
  }

  /** `np.zeros(n)` */
  function Zeros(n: nat): seq<real>
  {
    seq(n, _ => 0.0)
  }
}
