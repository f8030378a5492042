/** Polynomials given by coefficient lists, in the two layouts the program
    uses, and the companion matrix the root finders hand to Eigen. */
module Polynomial {
  import opened Numerics

  /** Value at `y` of the polynomial whose coefficients `a` are in ascending
      degree: a[0] + a[1]*y + ... (the layout root_eater.cpp reads). */
  function EvalAscending(a: seq<real>, y: real): real {
    if |a| == 0 then 0.0
    else EvalAscending(a[..|a| - 1], y) + a[|a| - 1] * Pow(y, |a| - 1)
  }

  /** Value at `y` of the polynomial whose coefficients are in descending
      degree, by Horner's rule (the layout np.roots reads). */
  function EvalDescending(a: seq<real>, y: real): real {
    if |a| == 0 then 0.0
    else EvalDescending(a[..|a| - 1], y) * y + a[|a| - 1]
  }

  function Reversed(a: seq<real>): (r: seq<real>)
    ensures |r| == |a|
    ensures forall i :: 0 <= i < |a| ==> r[i] == a[|a| - 1 - i]
  {
    if |a| == 0 then [] else [a[|a| - 1]] + Reversed(a[..|a| - 1])
  }

  lemma {:induction false} EvalAscendingCons(c: real, a: seq<real>, y: real)
    ensures EvalAscending([c] + a, y) == c + y * EvalAscending(a, y)
    decreases |a|
  {
    if |a| == 0 {
      assert [c] + a == [c];
      assert ([c] + a)[..0] == [];
    } else {
      var a' := a[..|a| - 1];
      assert ([c] + a)[..|[c] + a| - 1] == [c] + a';
      EvalAscendingCons(c, a', y);
      calc {
        EvalAscending([c] + a, y);
        EvalAscending([c] + a', y) + a[|a| - 1] * Pow(y, |a|);
        c + y * EvalAscending(a', y) + a[|a| - 1] * (y * Pow(y, |a| - 1));
        c + y * (EvalAscending(a', y) + a[|a| - 1] * Pow(y, |a| - 1));
      }
    }
  }

  /** Reading a coefficient list backwards in descending degree gives the same
      polynomial: both layouts in the program describe one cubic. */
  lemma {:induction false} LayoutsAgree(a: seq<real>, y: real)
    ensures EvalDescending(Reversed(a), y) == EvalAscending(a, y)
    decreases |a|
  {
    if |a| > 0 {
      var r := Reversed(a);
      var tail := a[1..];
      assert a == [a[0]] + tail;
      assert r[..|r| - 1] == Reversed(tail) by {
        assert forall i :: 0 <= i < |tail| ==> r[..|r| - 1][i] == Reversed(tail)[i];
      }
      LayoutsAgree(tail, y);
      EvalAscendingCons(a[0], tail, y);
      assert r[|r| - 1] == a[0];
    }
  }

  /** Entry (r, c) of the n-by-n companion matrix of `coef` as root_eater.cpp
      fills it: 1 on the subdiagonal, the negated coefficients in the last
      column (divided by the leading coefficient coef[n] when `normalise`),
      0 elsewhere. */
  function CompanionEntry(coef: seq<real>, n: nat, normalise: bool, r: nat, c: nat): real
    requires r < n && c < n && n <= |coef|
    requires normalise ==> n < |coef| && coef[n] != 0.0
  {
    if r == c + 1 then 1.0
    else if c == n - 1 then (if normalise then -coef[r] / coef[n] else -coef[r])
    else 0.0
  }

  function Companion(coef: seq<real>, n: nat, normalise: bool): (m: seq<seq<real>>)
    requires n <= |coef|
    requires normalise ==> n < |coef| && coef[n] != 0.0
    ensures |m| == n && forall r :: 0 <= r < n ==> |m[r]| == n
  {
    seq(n, r requires 0 <= r < n => seq(n, c requires 0 <= c < n => CompanionEntry(coef, n, normalise, r, c)))
  }

  /** Without normalisation only the first n coefficients enter the matrix, and
      with a leading coefficient of 1 the two constructions coincide. */
  lemma SpecialCompanionIsMonicCompanion(coef: seq<real>, n: nat)
    requires n < |coef| && coef[n] == 1.0
    ensures Companion(coef, n, false) == Companion(coef, n, true)
    ensures Companion(coef, n, false) == Companion(coef[..n], n, false)
  {
    var plain, monic, low := Companion(coef, n, false), Companion(coef, n, true), Companion(coef[..n], n, false);
    forall r | 0 <= r < n
      ensures plain[r] == monic[r] && plain[r] == low[r]
    {
      assert forall c :: 0 <= c < n ==> plain[r][c] == monic[r][c] == low[r][c];
    }
  }

  function Powers(y: real, n: nat): (v: seq<real>)
    ensures |v| == n
  {
    seq(n, i requires 0 <= i < n => Pow(y, i))
  }

  function Dot(u: seq<real>, w: seq<real>): real
    requires |u| == |w|
  {
    if |u| == 0 then 0.0
    else Dot(u[..|u| - 1], w[..|w| - 1]) + u[|u| - 1] * w[|w| - 1]
  }

  /** Pairing with a unit vector picks one entry. */
  lemma {:induction false} DotUnit(u: seq<real>, e: seq<real>, k: nat)
    requires k < |u| && |e| == |u|
    requires forall r :: 0 <= r < |e| ==> e[r] == if r == k then 1.0 else 0.0
    ensures Dot(u, e) == u[k]
    decreases |u|
  {
    var n := |u| - 1;
    if k == n {
      DotZero(u[..n], e[..n]);
    } else {
      DotUnit(u[..n], e[..n], k);
    }
  }

  lemma {:induction false} DotZero(u: seq<real>, e: seq<real>)
    requires |u| == |e| && forall r :: 0 <= r < |e| ==> e[r] == 0.0
    ensures Dot(u, e) == 0.0
    decreases |u|
  {
    if |u| > 0 {
      DotZero(u[..|u| - 1], e[..|e| - 1]);
    }
  }

  lemma {:induction false} DotScaled(u: seq<real>, a: seq<real>, w: seq<real>, s: real)
    requires |u| == |a| == |w|
    requires forall r :: 0 <= r < |w| ==> w[r] == s * a[r]
    ensures Dot(u, w) == s * Dot(u, a)
    decreases |u|
  {
    if |u| > 0 {
      var k := |u| - 1;
      DotScaled(u[..k], a[..k], w[..k], s);
      assert u[k] * w[k] == s * (u[k] * a[k]);
    }
  }

  lemma {:induction false} DotPowersIsValue(y: real, a: seq<real>)
    ensures Dot(Powers(y, |a|), a) == EvalAscending(a, y)
    decreases |a|
  {
    if |a| > 0 {
      var k := |a| - 1;
      assert Powers(y, |a|)[..k] == Powers(y, k);
      DotPowersIsValue(y, a[..k]);
    }
  }

  /** Every column of the companion matrix but the last shifts the powers of y up by one. */
  lemma CompanionShiftColumn(coef: seq<real>, n: nat, y: real, c: nat)
    requires c + 1 < n && |coef| == n + 1 && coef[n] != 0.0
    ensures Dot(Powers(y, n), Column(Companion(coef, n, true), c)) == y * Pow(y, c)
  {
    var col := Column(Companion(coef, n, true), c);
    assert forall r :: 0 <= r < n ==> col[r] == if r == c + 1 then 1.0 else 0.0;
    DotUnit(Powers(y, n), col, c + 1);
  }

  /** The last column of the companion matrix pairs the powers of y with the
      negated lower coefficients, divided by the leading one. */
  lemma CompanionLastColumn(coef: seq<real>, n: nat, y: real)
    requires n >= 1 && |coef| == n + 1 && coef[n] != 0.0
    ensures NegQuotient(Dot(Powers(y, n), Column(Companion(coef, n, true), n - 1)), EvalAscending(coef[..n], y), coef[n])
  {
    var last := Column(Companion(coef, n, true), n - 1);
    var low := coef[..n];
    assert forall r :: 0 <= r < n ==> last[r] == -1.0 / coef[n] * low[r];
    DotScaled(Powers(y, n), low, last, -1.0 / coef[n]);
    DotPowersIsValue(y, low);
  }

  /** Column c of v m equals entry c of y v. */
  predicate ColumnHolds(m: seq<seq<real>>, v: seq<real>, y: real, c: nat)
    requires |m| == |v| && forall r :: 0 <= r < |m| ==> |m[r]| == |v|
    requires c < |v|
  {
    Dot(v, Column(m, c)) == y * v[c]
  }

  /** v is a left eigenvector of the square matrix m with eigenvalue y: v m == y v. */
  ghost predicate IsLeftEigenvector(m: seq<seq<real>>, v: seq<real>, y: real)
    requires |m| == |v| && forall r :: 0 <= r < |m| ==> |m[r]| == |v|
  {
    forall c :: 0 <= c < |v| ==> ColumnHolds(m, v, y, c)
  }

  /** The companion matrix's eigenvalues are exactly the polynomial's roots:
      the row vector (1, y, ..., y^(n-1)) is a left eigenvector of the
      normalised companion matrix of `coef` with eigenvalue y precisely when
      y is a root of the polynomial with ascending coefficients `coef`. */
  lemma CompanionEigenvector(coef: seq<real>, n: nat, y: real)
    requires n >= 1 && |coef| == n + 1 && coef[n] != 0.0
    ensures IsLeftEigenvector(Companion(coef, n, true), Powers(y, n), y) <==> EvalAscending(coef, y) == 0.0
  {
    if EvalAscending(coef, y) == 0.0 {
      RootGivesEigenvector(coef, n, y);
    } else {
      LastColumnCondition(coef, n, y);
    }
  }

  lemma RootGivesEigenvector(coef: seq<real>, n: nat, y: real)
    requires n >= 1 && |coef| == n + 1 && coef[n] != 0.0
    requires EvalAscending(coef, y) == 0.0
    ensures IsLeftEigenvector(Companion(coef, n, true), Powers(y, n), y)
  {
    forall c | 0 <= c < n
      ensures ColumnHolds(Companion(coef, n, true), Powers(y, n), y, c)
    {
      RootColumn(coef, n, y, c);
    }
  }

  lemma RootColumn(coef: seq<real>, n: nat, y: real, c: nat)
    requires c < n && |coef| == n + 1 && coef[n] != 0.0
    requires EvalAscending(coef, y) == 0.0
    ensures ColumnHolds(Companion(coef, n, true), Powers(y, n), y, c)
  {
    if c < n - 1 {
      CompanionShiftColumn(coef, n, y, c);
    } else {
      LastColumnCondition(coef, n, y);
    }
  }

  /** The last column alone decides the eigenvector condition. */
  lemma LastColumnCondition(coef: seq<real>, n: nat, y: real)
    requires n >= 1 && |coef| == n + 1 && coef[n] != 0.0
    ensures ColumnHolds(Companion(coef, n, true), Powers(y, n), y, n - 1) <==> EvalAscending(coef, y) == 0.0
  {
    LastPower(y, n);
    EvalTop(coef, n, y);
    CompanionLastColumn(coef, n, y);
    ScaledRootIdentity(EvalAscending(coef[..n], y), coef[n], Pow(y, n),
                       Dot(Powers(y, n), Column(Companion(coef, n, true), n - 1)),
                       y * Powers(y, n)[n - 1], EvalAscending(coef, y));
  }

  /** d == -e / lead. */
  predicate NegQuotient(d: real, e: real, lead: real)
    requires lead != 0.0
  {
    d == -1.0 / lead * e
  }

  /** total == low + lead * top. */
  predicate SplitAtTop(total: real, low: real, lead: real, top: real) {
    total == low + lead * top
  }

  lemma LastPower(y: real, n: nat)
    requires n >= 1
    ensures y * Powers(y, n)[n - 1] == Pow(y, n)
  {
  }

  /** The top coefficient's term split off the polynomial's value. */
  lemma EvalTop(coef: seq<real>, n: nat, y: real)
    requires |coef| == n + 1
    ensures SplitAtTop(EvalAscending(coef, y), EvalAscending(coef[..n], y), coef[n], Pow(y, n))
  {
    assert coef[..|coef| - 1] == coef[..n];
  }

  /** With d == -e/lead, q == p and total == e + lead p: d == q exactly when total == 0. */
  lemma ScaledRootIdentity(e: real, lead: real, p: real, d: real, q: real, total: real)
    requires lead != 0.0 && NegQuotient(d, e, lead) && q == p && SplitAtTop(total, e, lead, p)
    ensures (d == q) <==> (total == 0.0)
  {
    if d == p {
      assert lead * p == lead * (-1.0 / lead * e) == -e;
    }
    if e + lead * p == 0.0 {
      assert -1.0 / lead * e == -1.0 / lead * (-(lead * p)) == p;
    }
  }

  /** v is non-zero somewhere. */
  predicate NonZeroVector(v: seq<real>) {
    exists i :: 0 <= i < |v| && v[i] != 0.0
  }

  /** y is an eigenvalue of the square matrix m: some non-zero row vector v
      has v m == y v (a matrix and its transpose share their eigenvalues). */
  ghost predicate IsEigenvalue(m: seq<seq<real>>, y: real)
    requires forall r :: 0 <= r < |m| ==> |m[r]| == |m|
  {
    exists v :: |v| == |m| && NonZeroVector(v) && IsLeftEigenvector(m, v, y)
  }

  /** x == s * y. */
  predicate Multiple(x: real, s: real, y: real) {
    x == s * y
  }

  lemma {:induction false} DotScaledLeft(u: seq<real>, v: seq<real>, w: seq<real>, s: real)
    requires |u| == |v| == |w|
    requires forall r :: 0 <= r < |v| ==> v[r] == s * u[r]
    ensures Multiple(Dot(v, w), s, Dot(u, w))
    decreases |u|
  {
    if |u| > 0 {
      var k := |u| - 1;
      DotScaledLeft(u[..k], v[..k], w[..k], s);
      assert v[k] * w[k] == s * (u[k] * w[k]);
    }
  }

  /** A left eigenvector of the companion matrix is a multiple of the powers
      of its eigenvalue: the shift columns force v[c+1] == y v[c]. */
  lemma {:induction false} EigenvectorIsPowers(coef: seq<real>, n: nat, y: real, v: seq<real>, c: nat)
    requires |coef| == n + 1 && coef[n] != 0.0 && |v| == n && c < n
    requires IsLeftEigenvector(Companion(coef, n, true), v, y)
    ensures v[c] == v[0] * Pow(y, c)
    decreases c
  {
    if c > 0 {
      EigenvectorIsPowers(coef, n, y, v, c - 1);
      var col := Column(Companion(coef, n, true), c - 1);
      assert forall r :: 0 <= r < n ==> col[r] == if r == c then 1.0 else 0.0;
      DotUnit(v, col, c);
      assert ColumnHolds(Companion(coef, n, true), v, y, c - 1);
      assert v[c] == y * v[c - 1];
      assert y * (v[0] * Pow(y, c - 1)) == v[0] * (y * Pow(y, c - 1));
    }
  }

  lemma CancelFactor(a: real, b: real, c: real)
    requires a != 0.0 && a * b == a * c
    ensures b == c
  {
  }

  /** The real eigenvalues of the normalised companion matrix of `coef` are
      exactly the real roots of the polynomial with ascending coefficients
      `coef`: this is why root_eater's eigenvalues are the roots. */
  lemma CompanionEigenvaluesAreRoots(coef: seq<real>, n: nat, y: real)
    requires n >= 1 && |coef| == n + 1 && coef[n] != 0.0
    ensures IsEigenvalue(Companion(coef, n, true), y) <==> EvalAscending(coef, y) == 0.0
  {
    if EvalAscending(coef, y) == 0.0 {
      RootIsEigenvalue(coef, n, y);
    }
    if IsEigenvalue(Companion(coef, n, true), y) {
      var v :| |v| == n && NonZeroVector(v) && IsLeftEigenvector(Companion(coef, n, true), v, y);
      EigenvectorGivesRoot(coef, n, y, v);
    }
  }

  lemma RootIsEigenvalue(coef: seq<real>, n: nat, y: real)
    requires n >= 1 && |coef| == n + 1 && coef[n] != 0.0
    requires EvalAscending(coef, y) == 0.0
    ensures IsEigenvalue(Companion(coef, n, true), y)
  {
    var p := Powers(y, n);
    CompanionEigenvector(coef, n, y);
    assert p[0] == 1.0;
    assert NonZeroVector(p);
  }

  lemma EigenvectorGivesRoot(coef: seq<real>, n: nat, y: real, v: seq<real>)
    requires n >= 1 && |coef| == n + 1 && coef[n] != 0.0
    requires |v| == n && NonZeroVector(v) && IsLeftEigenvector(Companion(coef, n, true), v, y)
    ensures EvalAscending(coef, y) == 0.0
  {
    var p := Powers(y, n);
    EigenvectorScalesPowers(coef, n, y, v);
    LeadNonZero(v, p);
    EigenvectorUnscaled(Companion(coef, n, true), v, p, v[0], y);
    CompanionEigenvector(coef, n, y);
  }

  /** Dividing a left eigenvector by a non-zero factor leaves a left eigenvector. */
  lemma EigenvectorUnscaled(m: seq<seq<real>>, v: seq<real>, p: seq<real>, a: real, y: real)
    requires |m| == |v| == |p| && forall r :: 0 <= r < |m| ==> |m[r]| == |v|
    requires a != 0.0 && forall c :: 0 <= c < |v| ==> v[c] == a * p[c]
    requires IsLeftEigenvector(m, v, y)
    ensures IsLeftEigenvector(m, p, y)
  {
    forall c | 0 <= c < |p|
      ensures ColumnHolds(m, p, y, c)
    {
      var col := Column(m, c);
      DotScaledLeft(p, v, col, a);
      assert ColumnHolds(m, v, y, c);
      ScaledEquation(a, Dot(p, col), y, p[c], Dot(v, col), v[c]);
    }
  }

  lemma ScaledEquation(a: real, d: real, y: real, q: real, dv: real, vl: real)
    requires a != 0.0 && Multiple(dv, a, d) && dv == y * vl && vl == a * q
    ensures d == y * q
  {
    assert a * d == a * (y * q);
    CancelFactor(a, d, y * q);
  }

  /** A left eigenvector of the companion matrix is v[0] times the powers of y. */
  lemma EigenvectorScalesPowers(coef: seq<real>, n: nat, y: real, v: seq<real>)
    requires |coef| == n + 1 && coef[n] != 0.0
    requires |v| == n && IsLeftEigenvector(Companion(coef, n, true), v, y)
    ensures forall c :: 0 <= c < n ==> v[c] == v[0] * Powers(y, n)[c]
  {
    forall c | 0 <= c < n
      ensures v[c] == v[0] * Powers(y, n)[c]
    {
      EigenvectorIsPowers(coef, n, y, v, c);
    }
  }

  /** A non-zero multiple a*p has a == v[0] != 0. */
  lemma LeadNonZero(v: seq<real>, p: seq<real>)
    requires |v| == |p| && NonZeroVector(v)
    requires forall c :: 0 <= c < |v| ==> v[c] == v[0] * p[c]
    ensures v[0] != 0.0
  {
    var i :| 0 <= i < |v| && v[i] != 0.0;
    assert v[0] * p[i] != 0.0;
  }
}
