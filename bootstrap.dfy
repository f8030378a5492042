/** The statistics the one-site bootstrap of the top-level model_building.py
    takes of its stacks of refits: `np.sort(np.vstack(stack), axis=0)` and
    rows 25 and 975 of the result as the lower and upper prediction band,
    and `np.std` of a parameter column as that parameter's error.

    np.sort is specified by a reference insertion sort: the sorted
    permutation of a column is unique, so any correct sort agrees with it. */
module Bootstrap {
  import opened Numerics

  predicate Sorted(s: seq<real>) {
    forall i, j :: 0 <= i < j < |s| ==> s[i] <= s[j]
  }

  function Insert(v: real, s: seq<real>): (r: seq<real>)
    ensures |r| == |s| + 1
  {
    if |s| == 0 || v <= s[0] then [v] + s else [s[0]] + Insert(v, s[1..])
  }

  /** The reference sort of one column. */
  function Sort(s: seq<real>): (r: seq<real>)
    ensures |r| == |s|
  {
    if |s| == 0 then [] else Insert(s[0], Sort(s[1..]))
  }

  predicate AtLeast(s: seq<real>, b: real) {
    forall i :: 0 <= i < |s| ==> b <= s[i]
  }

  lemma {:induction false} InsertAtLeast(v: real, s: seq<real>, b: real)
    requires AtLeast(s, b) && b <= v
    ensures AtLeast(Insert(v, s), b)
    decreases |s|
  {
    if |s| > 0 && v > s[0] {
      assert AtLeast(s[1..], b);
      InsertAtLeast(v, s[1..], b);
    }
  }

  lemma {:induction false} InsertSorted(v: real, s: seq<real>)
    requires Sorted(s)
    ensures Sorted(Insert(v, s))
    ensures multiset(Insert(v, s)) == multiset(s) + multiset{v}
    decreases |s|
  {
    if |s| > 0 && v > s[0] {
      var t := s[1..];
      assert Sorted(t) && AtLeast(t, s[0]);
      InsertSorted(v, t);
      InsertAtLeast(v, t, s[0]);
      ConsSorted(s[0], Insert(v, t));
      assert s == [s[0]] + t;
    }
  }

  lemma ConsSorted(b: real, r: seq<real>)
    requires Sorted(r) && AtLeast(r, b)
    ensures Sorted([b] + r)
  {
    var q := [b] + r;
    forall i, j | 0 <= i < j < |q|
      ensures q[i] <= q[j]
    {
      assert q[j] == r[j - 1];
      if i > 0 {
        assert q[i] == r[i - 1];
      }
    }
  }

  /** np.sort returns the column in ascending order, as a permutation of it. */
  lemma {:induction false} SortSpec(s: seq<real>)
    ensures Sorted(Sort(s))
    ensures multiset(Sort(s)) == multiset(s)
    decreases |s|
  {
    if |s| > 0 {
      SortSpec(s[1..]);
      InsertSorted(s[0], Sort(s[1..]));
      assert s == [s[0]] + s[1..];
    }
  }

  /** Sorting is the identity on a column already in order. */
  lemma {:induction false} SortOfSorted(s: seq<real>)
    requires Sorted(s)
    ensures Sort(s) == s
    decreases |s|
  {
    if |s| > 0 {
      assert Sorted(s[1..]);
      SortOfSorted(s[1..]);
      assert s == [s[0]] + s[1..];
    }
  }

  /** How many entries lie strictly below `v`, and strictly above it. */
  function CountBelow(s: seq<real>, v: real): nat {
    if |s| == 0 then 0 else (if s[0] < v then 1 else 0) + CountBelow(s[1..], v)
  }

  function CountAbove(s: seq<real>, v: real): nat {
    if |s| == 0 then 0 else (if s[0] > v then 1 else 0) + CountAbove(s[1..], v)
  }

  lemma {:induction false} InsertCounts(x: real, s: seq<real>, v: real)
    ensures CountBelow(Insert(x, s), v) == CountBelow([x] + s, v)
    ensures CountAbove(Insert(x, s), v) == CountAbove([x] + s, v)
    decreases |s|
  {
    if |s| > 0 && x > s[0] {
      InsertCounts(x, s[1..], v);
      assert ([x] + s[1..])[1..] == s[1..];
      assert ([s[0]] + Insert(x, s[1..]))[1..] == Insert(x, s[1..]);
      assert ([x] + s)[1..] == s;
      assert s[1..] == s[1..][0..];
      assert CountBelow(s, v) == (if s[0] < v then 1 else 0) + CountBelow(s[1..], v);
    }
  }

  /** Sorting does not change how many entries lie on either side of a value. */
  lemma {:induction false} SortCounts(s: seq<real>, v: real)
    ensures CountBelow(Sort(s), v) == CountBelow(s, v)
    ensures CountAbove(Sort(s), v) == CountAbove(s, v)
    decreases |s|
  {
    if |s| > 0 {
      SortCounts(s[1..], v);
      InsertCounts(s[0], Sort(s[1..]), v);
      assert ([s[0]] + Sort(s[1..]))[1..] == Sort(s[1..]);
    }
  }

  lemma {:induction false} NoneBelow(s: seq<real>, v: real)
    requires forall i :: 0 <= i < |s| ==> s[i] >= v
    ensures CountBelow(s, v) == 0
    decreases |s|
  {
    if |s| > 0 {
      NoneBelow(s[1..], v);
    }
  }

  lemma {:induction false} NoneAbove(s: seq<real>, v: real)
    requires forall i :: 0 <= i < |s| ==> s[i] <= v
    ensures CountAbove(s, v) == 0
    decreases |s|
  {
    if |s| > 0 {
      NoneAbove(s[1..], v);
    }
  }

  /** In a sorted column only the entries before position k can lie below s[k]. */
  lemma {:induction false} SortedCountBelow(s: seq<real>, k: nat)
    requires Sorted(s) && k < |s|
    ensures CountBelow(s, s[k]) <= k
    decreases k
  {
    if s[0] < s[k] {
      assert Sorted(s[1..]) && s[1..][k - 1] == s[k];
      SortedCountBelow(s[1..], k - 1);
    } else {
      NoneBelow(s, s[k]);
    }
  }

  /** ... and only the entries after position k can lie above it. */
  lemma {:induction false} SortedCountAbove(s: seq<real>, k: nat)
    requires Sorted(s) && k < |s|
    ensures CountAbove(s, s[k]) <= |s| - 1 - k
    decreases |s|
  {
    if k == 0 {
      assert CountAbove(s, s[0]) == CountAbove(s[1..], s[0]);
      CountAtMostLength(s[1..], s[0]);
    } else {
      assert Sorted(s[1..]) && s[1..][k - 1] == s[k];
      SortedCountAbove(s[1..], k - 1);
      assert CountAbove(s, s[k]) == CountAbove(s[1..], s[k]);
    }
  }

  lemma {:induction false} CountAtMostLength(s: seq<real>, v: real)
    ensures CountAbove(s, v) <= |s|
    decreases |s|
  {
    if |s| > 0 {
      CountAtMostLength(s[1..], v);
    }
  }

  /** The stack of bootstrap predictions: one row per refit, `w` columns. */
  predicate Rectangular(stack: seq<seq<real>>, w: nat) {
    forall r :: 0 <= r < |stack| ==> |stack[r]| == w
  }

  /** Row `k` of `np.sort(stack, axis=0)`: the k-th smallest entry of every column. */
  function SortedRow(stack: seq<seq<real>>, w: nat, k: nat): (row: seq<real>)
    requires Rectangular(stack, w) && k < |stack|
    ensures |row| == w
  {
    seq(w, j requires 0 <= j < w => Sort(Column(stack, j))[k])
  }

  /** `lowpreds` and `highpreds`: rows 25 and 975 of 1000 sorted refits. */
  function LowBand(stack: seq<seq<real>>, w: nat): (low: seq<real>)
    requires Rectangular(stack, w) && |stack| == 1000
    ensures |low| == w
  {
    SortedRow(stack, w, 25)
  }

  function HighBand(stack: seq<seq<real>>, w: nat): (high: seq<real>)
    requires Rectangular(stack, w) && |stack| == 1000
    ensures |high| == w
  {
    SortedRow(stack, w, 975)
  }

  /** At every point of the prediction grid the band is ordered, both ends are
      predictions of some refit, at most 25 refits predict below the lower end
      and at most 24 above the upper end. */
  lemma BandSpec(stack: seq<seq<real>>, w: nat, j: nat)
    requires Rectangular(stack, w) && |stack| == 1000 && j < w
    ensures LowBand(stack, w)[j] <= HighBand(stack, w)[j]
    ensures LowBand(stack, w)[j] in multiset(Column(stack, j))
    ensures HighBand(stack, w)[j] in multiset(Column(stack, j))
    ensures CountBelow(Column(stack, j), LowBand(stack, w)[j]) <= 25
    ensures CountAbove(Column(stack, j), HighBand(stack, w)[j]) <= 24
  {
    var col := Column(stack, j);
    var t := Sort(col);
    SortSpec(col);
    assert LowBand(stack, w)[j] == t[25] && HighBand(stack, w)[j] == t[975];
    assert t[25] in multiset(t) && t[975] in multiset(t);
    SortCounts(col, t[25]);
    SortCounts(col, t[975]);
    SortedCountBelow(t, 25);
    SortedCountAbove(t, 975);
  }

  function Sum(s: seq<real>): real {
    if |s| == 0 then 0.0 else Sum(s[..|s| - 1]) + s[|s| - 1]
  }

  function Mean(s: seq<real>): real
    requires |s| > 0
  {
    Sum(s) / (|s| as real)
  }

  function SquaredDeviations(s: seq<real>, m: real): (d: seq<real>)
    ensures |d| == |s|
  {
    seq(|s|, i requires 0 <= i < |s| => (s[i] - m) * (s[i] - m))
  }

  /** The population variance np.std takes the square root of (ddof = 0). */
  function Variance(s: seq<real>): real
    requires |s| > 0
  {
    Mean(SquaredDeviations(s, Mean(s)))
  }

  /** `np.std` of a column. */
  function Std(lib: Library, s: seq<real>): real
    requires |s| > 0
  {
    lib.sqrt(Variance(s))
  }

  predicate AllNonNegative(s: seq<real>) {
    forall i :: 0 <= i < |s| ==> s[i] >= 0.0
  }

  lemma {:induction false} SumNonNegative(s: seq<real>)
    requires AllNonNegative(s)
    ensures Sum(s) >= 0.0
    decreases |s|
  {
    if |s| > 0 {
      assert AllNonNegative(s[..|s| - 1]);
      SumNonNegative(s[..|s| - 1]);
    }
  }

  /** A sum of non-negative terms is zero only when every term is. */
  lemma {:induction false} SumZero(s: seq<real>)
    requires AllNonNegative(s) && Sum(s) == 0.0
    ensures forall i :: 0 <= i < |s| ==> s[i] == 0.0
    decreases |s|
  {
    if |s| > 0 {
      var front := s[..|s| - 1];
      assert AllNonNegative(front);
      SumNonNegative(front);
      SumZero(front);
      assert forall i :: 0 <= i < |front| ==> s[i] == front[i];
    }
  }

  lemma {:induction false} SumOfZeros(s: seq<real>)
    requires forall i :: 0 <= i < |s| ==> s[i] == 0.0
    ensures Sum(s) == 0.0
    decreases |s|
  {
    if |s| > 0 {
      SumOfZeros(s[..|s| - 1]);
    }
  }

  lemma {:induction false} SumOfConstant(s: seq<real>, c: real)
    requires forall i :: 0 <= i < |s| ==> s[i] == c
    ensures Sum(s) == (|s| as real) * c
    decreases |s|
  {
    if |s| > 0 {
      SumOfConstant(s[..|s| - 1], c);
    }
  }

  lemma DeviationsNonNegative(s: seq<real>, m: real)
    ensures AllNonNegative(SquaredDeviations(s, m))
  {
    forall i | 0 <= i < |s|
      ensures SquaredDeviations(s, m)[i] >= 0.0
    {
      var d := s[i] - m;
      assert d * d >= 0.0;
    }
  }

  /** The variance is never negative, so np.sqrt is defined on it and the
      error np.std reports is a genuine standard deviation. */
  lemma VarianceNonNegative(lib: Library, s: seq<real>)
    requires |s| > 0
    ensures Variance(s) >= 0.0
    ensures IsSqrt(lib.sqrt(Variance(s)), Variance(s)) ==> Std(lib, s) * Std(lib, s) == Variance(s)
  {
    var d := SquaredDeviations(s, Mean(s));
    DeviationsNonNegative(s, Mean(s));
    SumNonNegative(d);
    QuotientNonNegative(Sum(d), |s| as real);
  }

  lemma QuotientNonNegative(a: real, n: real)
    requires a >= 0.0 && n > 0.0
    ensures a / n >= 0.0
  {
  }

  /** The variance is zero exactly when every refit gave the same value. */
  lemma VarianceZeroIffConstant(s: seq<real>)
    requires |s| > 0
    ensures Variance(s) == 0.0 <==> forall i :: 0 <= i < |s| ==> s[i] == s[0]
  {
    if Variance(s) == 0.0 {
      ZeroVarianceIsConstant(s);
    }
    if forall i :: 0 <= i < |s| ==> s[i] == s[0] {
      ConstantHasZeroVariance(s);
    }
  }

  lemma ZeroVarianceIsConstant(s: seq<real>)
    requires |s| > 0 && Variance(s) == 0.0
    ensures forall i :: 0 <= i < |s| ==> s[i] == s[0]
  {
    var m := Mean(s);
    var d := SquaredDeviations(s, m);
    DeviationsNonNegative(s, m);
    QuotientZero(Sum(d), |s| as real);
    SumZero(d);
    forall i | 0 <= i < |s|
      ensures s[i] == s[0]
    {
      assert d[i] == 0.0 && d[0] == 0.0;
      SquareZero(s[i] - m);
      SquareZero(s[0] - m);
    }
  }

  lemma ConstantHasZeroVariance(s: seq<real>)
    requires |s| > 0 && forall i :: 0 <= i < |s| ==> s[i] == s[0]
    ensures Variance(s) == 0.0
  {
    SumOfConstant(s, s[0]);
    MeanOfConstant(Sum(s), |s| as real, s[0]);
    var d := SquaredDeviations(s, Mean(s));
    assert forall i :: 0 <= i < |d| ==> d[i] == 0.0;
    SumOfZeros(d);
  }

  lemma QuotientZero(a: real, n: real)
    requires n > 0.0 && a / n == 0.0
    ensures a == 0.0
  {
    assert a == (a / n) * n;
  }

  lemma SquareZero(d: real)
    requires d * d == 0.0
    ensures d == 0.0
  {
    if d != 0.0 {
      ZeroProduct(d, d);
    }
  }

  lemma MeanOfConstant(total: real, n: real, c: real)
    requires n > 0.0 && total == n * c
    ensures total / n == c
  {
  }
}
