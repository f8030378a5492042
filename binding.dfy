/** The mass-action equilibria of the one- and two-site binding models, as
    both protbind_model classes compute them. */
module Binding {
  import opened Numerics
  import opened Polynomial

  /** The quantity under the square root in `onebind`. */
  function Discriminant(kd: real, ptot: real, x: real): real {
    (kd + ptot - x) * (kd + ptot - x) + 4.0 * kd * x
  }

  /** `onebind` at one total concentration x: the closed-form free
      concentration -(kd+ptot-x)/2 + sqrt((kd+ptot-x)^2 + 4 kd x)/2. */
  function OneBind(lib: Library, kd: real, ptot: real, x: real): real {
    -0.5 * (kd + ptot - x) + 0.5 * lib.sqrt(Discriminant(kd, ptot, x))
  }

  /** `onebind` over a vector of totals; like numpy it evaluates point by point
      and reads only params[0] and params[1]. */
  function OneBindAll(lib: Library, xs: seq<real>, params: seq<real>): (ys: seq<real>)
    requires |params| >= 2
    ensures |ys| == |xs|
  {
    seq(|xs|, i requires 0 <= i < |xs| => OneBind(lib, params[0], params[1], xs[i]))
  }

  /** With an exact square root the one-site result solves the binding
      quadratic y^2 + (kd + ptot - x) y - kd x = 0. */
  lemma OneBindSolvesQuadratic(lib: Library, kd: real, ptot: real, x: real)
    requires IsSqrt(lib.sqrt(Discriminant(kd, ptot, x)), Discriminant(kd, ptot, x))
    ensures var y := OneBind(lib, kd, ptot, x);
            y * y + (kd + ptot - x) * y - kd * x == 0.0
  {
    var b := kd + ptot - x;
    var s := lib.sqrt(Discriminant(kd, ptot, x));
    var y := OneBind(lib, kd, ptot, x);
    assert y == 0.5 * (s - b);
    calc {
      y * y + b * y;
      0.25 * (s - b) * (s - b) + 0.5 * b * (s - b);
      0.25 * (s * s - b * b);
      0.25 * (b * b + 4.0 * kd * x - b * b);
      kd * x;
    }
  }

  /** With an exact square root and non-negative constants the one-site free
      concentration lies between 0 and the total. */
  lemma OneBindBounds(lib: Library, kd: real, ptot: real, x: real)
    requires kd >= 0.0 && ptot >= 0.0 && x >= 0.0
    requires IsSqrt(lib.sqrt(Discriminant(kd, ptot, x)), Discriminant(kd, ptot, x))
    ensures 0.0 <= OneBind(lib, kd, ptot, x) <= x
  {
    var b := kd + ptot - x;
    var s := lib.sqrt(Discriminant(kd, ptot, x));
    var t := kd + ptot + x;
    assert s * s >= b * b by {
      assert 4.0 * kd * x >= 0.0;
    }
    SquareMonotone(s, Abs(b));
    assert t * t - s * s == 4.0 * x * ptot by {
      calc {
        t * t - b * b;
        (t - b) * (t + b);
        (2.0 * x) * (2.0 * kd + 2.0 * ptot);
      }
    }
    assert t >= 0.0;
    SquareMonotone(t, s);
  }

  /** For non-negative a, b: a*a >= b*b implies a >= b. */
  lemma SquareMonotone(a: real, b: real)
    requires a >= 0.0 && b >= 0.0 && a * a >= b * b
    ensures a >= b
  {
    if a + b > 0.0 {
      assert (a - b) * (a + b) == a * a - b * b;
      NonNegativeFactor(a - b, a + b);
    }
  }

  /** The one-site mass balance: for a non-negative free concentration y and
      positive kd, y solves the binding quadratic exactly when the total is free
      plus bound, x = y + ptot y / (kd + y). */
  lemma OneSiteMassBalance(kd: real, ptot: real, x: real, y: real)
    requires kd > 0.0 && y >= 0.0
    ensures y * y + (kd + ptot - x) * y - kd * x == 0.0 <==> x == y + ptot * y / (kd + y)
  {
    var q := kd + y;
    var bound := ptot * y / q;
    assert bound * q == ptot * y;
    assert y * y + (kd + ptot - x) * y - kd * x == q * (y + bound - x);
    ZeroProduct(q, y + bound - x);
  }

  lemma PositiveProduct(u: real, v: real)
    requires u > 0.0 && v > 0.0
    ensures u * v > 0.0
  {
  }

  lemma NonNegativeFactor(u: real, v: real)
    requires v > 0.0 && u * v >= 0.0
    ensures u >= 0.0
  {
  }

  /** With a positive kd, a non-negative p1, a non-negative total and an exact
      square root, `onebind` returns a free concentration between 0 and the
      total that satisfies the one-site mass balance x = y + p1*y/(kd + y). */
  lemma OneBindAllSolvesMassBalance(lib: Library, xs: seq<real>, params: seq<real>, i: nat)
    requires |params| >= 2 && params[0] > 0.0 && params[1] >= 0.0 && i < |xs| && xs[i] >= 0.0
    requires SqrtSound(lib.sqrt)
    ensures 0.0 <= OneBindAll(lib, xs, params)[i] <= xs[i]
    ensures var y := OneBindAll(lib, xs, params)[i];
            xs[i] == y + params[1] * y / (params[0] + y)
  {
    var kd, ptot, x := params[0], params[1], xs[i];
    var d := Discriminant(kd, ptot, x);
    assert d >= 0.0 by {
      assert 4.0 * kd * x >= 0.0 by { NonNegativeProduct(4.0 * kd, x); }
      assert (kd + ptot - x) * (kd + ptot - x) >= 0.0 by { SquareNonNegative(kd + ptot - x); }
    }
    var y := OneBind(lib, kd, ptot, x);
    assert OneBindAll(lib, xs, params)[i] == y;
    OneBindBounds(lib, kd, ptot, x);
    OneBindSolvesQuadratic(lib, kd, ptot, x);
    OneSiteMassBalance(kd, ptot, x, y);
  }

  lemma NonNegativeProduct(a: real, b: real)
    requires a >= 0.0 && b >= 0.0
    ensures a * b >= 0.0
  {
  }

  lemma SquareNonNegative(a: real)
    ensures a * a >= 0.0
  {
    if a < 0.0 {
      NonNegativeProduct(-a, -a);
    } else {
      NonNegativeProduct(a, a);
    }
  }

  /** Coefficients b, c, d of the monic two-site cubic y^3 + b y^2 + c y + d in
      `twobind` at total concentration x. */
  function CubicB(kd1: real, kd2: real, p1: real, p2: real, x: real): real {
    p1 + p2 + kd1 + kd2 - x
  }

  function CubicC(kd1: real, kd2: real, p1: real, p2: real, x: real): real {
    p1 * kd2 + p2 * kd1 + kd1 * kd2 - kd2 * x - kd1 * x
  }

  function CubicD(kd1: real, kd2: real, p1: real, p2: real, x: real): real {
    -kd1 * kd2 * x
  }

  /** The row handed to root_eater.cpp: ascending degree, [d, c, b, 1]. */
  function AscendingCubic(kd1: real, kd2: real, p1: real, p2: real, x: real): seq<real> {
    [CubicD(kd1, kd2, p1, p2, x), CubicC(kd1, kd2, p1, p2, x), CubicB(kd1, kd2, p1, p2, x), 1.0]
  }

  /** The list handed to np.roots: descending degree, [1, b, c, d]. */
  function DescendingCubic(kd1: real, kd2: real, p1: real, p2: real, x: real): seq<real> {
    [1.0, CubicB(kd1, kd2, p1, p2, x), CubicC(kd1, kd2, p1, p2, x), CubicD(kd1, kd2, p1, p2, x)]
  }

  /** The ligand bound at free concentration y by two independent sites. */
  function TwoSiteTotal(kd1: real, kd2: real, p1: real, p2: real, y: real): real
    requires kd1 + y != 0.0 && kd2 + y != 0.0
  {
    y + p1 * y / (kd1 + y) + p2 * y / (kd2 + y)
  }

  /** The two layouts are one cubic read in opposite directions, and it is monic. */
  lemma CubicLayouts(kd1: real, kd2: real, p1: real, p2: real, x: real, y: real)
    ensures DescendingCubic(kd1, kd2, p1, p2, x) == Reversed(AscendingCubic(kd1, kd2, p1, p2, x))
    ensures EvalDescending(DescendingCubic(kd1, kd2, p1, p2, x), y)
            == EvalAscending(AscendingCubic(kd1, kd2, p1, p2, x), y)
    ensures AscendingCubic(kd1, kd2, p1, p2, x)[3] == 1.0
  {
    var asc := AscendingCubic(kd1, kd2, p1, p2, x);
    var r := Reversed(asc);
    assert r == [asc[3], asc[2], asc[1], asc[0]];
    LayoutsAgree(asc, y);
  }

  lemma PowStep(y: real, k: nat, below: real)
    requires k > 0 && Pow(y, k - 1) == below
    ensures Pow(y, k) == y * below
  {
  }

  /** One step of the ascending evaluation. */
  lemma EvalSnoc(a: seq<real>, y: real)
    requires |a| > 0
    ensures EvalAscending(a, y) == EvalAscending(a[..|a| - 1], y) + a[|a| - 1] * Pow(y, |a| - 1)
  {
  }

  lemma EvalCubic(a: seq<real>, y: real)
    requires |a| == 4
    ensures EvalAscending(a, y) == a[0] + a[1] * y + a[2] * (y * y) + a[3] * (y * y * y)
  {
    var a3, a2, a1 := a[..3], a[..2], a[..1];
    assert a3[..2] == a2 && a2[..1] == a1 && a1[..0] == [];
    assert Pow(y, 0) == 1.0;
    PowStep(y, 1, 1.0);
    PowStep(y, 2, y);
    PowStep(y, 3, y * y);
    EvalSnoc(a1, y);
    EvalSnoc(a2, y);
    EvalSnoc(a3, y);
    EvalSnoc(a, y);
  }

  /** The two-site mass balance: for a non-negative free concentration y and
      positive dissociation constants, y is a root of the cubic `twobind`
      builds exactly when the total x is free ligand plus ligand bound at
      both sites. */
  lemma CubicRootIsMassBalance(kd1: real, kd2: real, p1: real, p2: real, x: real, y: real)
    requires kd1 > 0.0 && kd2 > 0.0 && y >= 0.0
    ensures EvalAscending(AscendingCubic(kd1, kd2, p1, p2, x), y) == 0.0
            <==> x == TwoSiteTotal(kd1, kd2, p1, p2, y)
  {
    CubicFactorisation(kd1, kd2, p1, p2, x, y);
    ZeroIffGap(EvalAscending(AscendingCubic(kd1, kd2, p1, p2, x), y), kd1 + y, kd2 + y, x - TwoSiteTotal(kd1, kd2, p1, p2, y));
  }

  /** e is the gap scaled by -(q1 q2). */
  predicate Factored(e: real, q1: real, q2: real, gap: real) {
    e == -(q1 * q2) * gap
  }

  lemma ZeroIffGap(e: real, q1: real, q2: real, gap: real)
    requires q1 > 0.0 && q2 > 0.0 && Factored(e, q1, q2, gap)
    ensures e == 0.0 <==> gap == 0.0
  {
    PositiveProduct(q1, q2);
    ZeroProduct(-(q1 * q2), gap);
  }

  /** The cubic is -(kd1 + y)(kd2 + y) times the gap between x and the mass balance. */
  lemma CubicFactorisation(kd1: real, kd2: real, p1: real, p2: real, x: real, y: real)
    requires kd1 + y != 0.0 && kd2 + y != 0.0
    ensures Factored(EvalAscending(AscendingCubic(kd1, kd2, p1, p2, x), y), kd1 + y, kd2 + y, x - TwoSiteTotal(kd1, kd2, p1, p2, y))
  {
    CubicValue(kd1, kd2, p1, p2, x, y);
    FactoredValue(EvalAscending(AscendingCubic(kd1, kd2, p1, p2, x), y), kd1, kd2, p1, p2, x, y);
  }

  lemma FactoredValue(e: real, kd1: real, kd2: real, p1: real, p2: real, x: real, y: real)
    requires kd1 + y != 0.0 && kd2 + y != 0.0
    requires e == -((kd1 + y) * (kd2 + y) * x) + (kd1 + y) * (kd2 + y) * y + (p1 * y) * (kd2 + y) + (p2 * y) * (kd1 + y)
    ensures Factored(e, kd1 + y, kd2 + y, x - TwoSiteTotal(kd1, kd2, p1, p2, y))
  {
    ClearDenominators(e, kd1 + y, kd2 + y, p1 * y, p2 * y, x, y, TwoSiteTotal(kd1, kd2, p1, p2, y));
  }

  /** The cubic at y, with the factors kd1 + y and kd2 + y gathered. */
  lemma CubicValue(kd1: real, kd2: real, p1: real, p2: real, x: real, y: real)
    ensures EvalAscending(AscendingCubic(kd1, kd2, p1, p2, x), y)
            == -((kd1 + y) * (kd2 + y) * x) + (kd1 + y) * (kd2 + y) * y
               + (p1 * y) * (kd2 + y) + (p2 * y) * (kd1 + y)
  {
    EvalCubic(AscendingCubic(kd1, kd2, p1, p2, x), y);
    CubicExpanded(kd1, kd2, p1, p2, x, y);
  }

  /** The cubic, multiplied out. */
  lemma CubicExpanded(kd1: real, kd2: real, p1: real, p2: real, x: real, y: real)
    ensures CubicD(kd1, kd2, p1, p2, x) + CubicC(kd1, kd2, p1, p2, x) * y
              + CubicB(kd1, kd2, p1, p2, x) * (y * y) + 1.0 * (y * y * y)
            == -((kd1 + y) * (kd2 + y) * x) + (kd1 + y) * (kd2 + y) * y
               + (p1 * y) * (kd2 + y) + (p2 * y) * (kd1 + y)
  {
  }

  /** Multiplying the gap x - (y + n1/q1 + n2/q2) by -(q1 q2) clears the denominators. */
  lemma ClearDenominators(e: real, q1: real, q2: real, n1: real, n2: real, x: real, y: real, total: real)
    requires q1 != 0.0 && q2 != 0.0 && total == y + n1 / q1 + n2 / q2
    requires e == -(q1 * q2 * x) + q1 * q2 * y + n1 * q2 + n2 * q1
    ensures e == -(q1 * q2) * (x - total)
  {
    var f1, f2 := n1 / q1, n2 / q2;
    assert f1 * q1 == n1;
    assert f2 * q2 == n2;
    calc {
      -(q1 * q2) * (x - total);
      -(q1 * q2) * (x - (y + f1 + f2));
      -(q1 * q2 * x) + q1 * q2 * y + (f1 * q1) * q2 + (f2 * q2) * q1;
    }
  }
}
