/** root_eater.cpp: the C++ routines the fitter loads through ctypes. Each
    reads a row-major buffer of polynomial coefficient rows (ascending degree),
    builds the companion matrix of every row, asks Eigen for its eigenvalues and
    writes results into the caller's output buffer in place. */
module RootEaterCpp {
  import opened Numerics
  import opened Polynomial

  // ---------------------------------------------------------------------------
  // The row-major buffers shared with the Python side

  lemma RowFits(i: nat, numRows: nat, numCol: nat)
    requires i < numRows
    ensures i * numCol + numCol <= numRows * numCol
  {
    var rest: nat := numRows - i - 1;
    assert numRows * numCol == i * numCol + numCol + rest * numCol;
  }

  /** Row i of a row-major buffer with `numCol` entries per row. */
  function Row(buf: seq<real>, numRows: nat, numCol: nat, i: nat): (row: seq<real>)
    requires |buf| == numRows * numCol && i < numRows
    ensures |row| == numCol
  {
    RowFits(i, numRows, numCol);
    buf[i * numCol .. i * numCol + numCol]
  }

  function RowsOf(buf: seq<real>, numRows: nat, numCol: nat): (rows: seq<seq<real>>)
    requires |buf| == numRows * numCol
    ensures |rows| == numRows && forall i :: 0 <= i < numRows ==> |rows[i]| == numCol
  {
    seq(numRows, i requires 0 <= i < numRows => Row(buf, numRows, numCol, i))
  }

  /** Entry k of row i sits at offset i*numCol + k of the buffer, as the C++
      code's `input_array[input_row*num_col + k]` reads it. */
  lemma RowEntry(buf: seq<real>, numRows: nat, numCol: nat, i: nat, k: nat)
    requires |buf| == numRows * numCol && i < numRows && k < numCol
    ensures i * numCol + k < |buf|
    ensures RowsOf(buf, numRows, numCol)[i][k] == buf[i * numCol + k]
  {
    RowFits(i, numRows, numCol);
  }

  /** The entries of a square Eigen matrix, row by row. */
  function Grid(m: array2<real>): (g: seq<seq<real>>)
    reads m
    ensures |g| == m.Length0 && forall r :: 0 <= r < |g| ==> |g[r]| == m.Length1
  {
    seq(m.Length0, r requires 0 <= r < m.Length0 reads m =>
      seq(m.Length1, c requires 0 <= c < m.Length1 reads m => m[r, c]))
  }

  /** Every row's polynomial has a non-zero leading coefficient, the divisor
      of the normalised last column. */
  predicate LeadingNonZero(buf: seq<real>, numRows: nat, numCol: nat)
    requires |buf| == numRows * numCol && numCol >= 1
  {
    forall i :: 0 <= i < numRows ==> RowsOf(buf, numRows, numCol)[i][numCol - 1] != 0.0
  }

  // ---------------------------------------------------------------------------
  // Companion matrix construction

  /** The nested loops over `polymat_row` and `polymat_col`: 1 on the
      subdiagonal, else the negated coefficient (divided by the leading one
      when `normalise`) in the last column, else 0. `find_roots` normalises;
      the two special routines do not. */
  method FillCompanion(m: array2<real>, input: array<real>, numRows: nat, numCol: nat, row: nat, n: nat, normalise: bool)
    requires m.Length0 == n && m.Length1 == n
    requires input.Length == numRows * numCol && row < numRows && n <= numCol
    requires normalise ==> n < numCol && RowsOf(input[..], numRows, numCol)[row][n] != 0.0
    modifies m
    ensures Grid(m) == Companion(RowsOf(input[..], numRows, numCol)[row], n, normalise)
  {
    ghost var coef := RowsOf(input[..], numRows, numCol)[row];
    var r := 0;
    while r < n
      invariant 0 <= r <= n
      invariant forall r', c :: 0 <= r' < r && 0 <= c < n ==> m[r', c] == CompanionEntry(coef, n, normalise, r', c)
    {
      FillCompanionRow(m, input, numRows, numCol, row, n, normalise, r);
      r := r + 1;
    }
    GridIsCompanion(m, coef, n, normalise);
  }

  /** One pass of the inner loop, over matrix row r; the other rows keep their entries. */
  method FillCompanionRow(m: array2<real>, input: array<real>, numRows: nat, numCol: nat, row: nat, n: nat,
                          normalise: bool, r: nat)
    requires m.Length0 == n && m.Length1 == n && r < n
    requires input.Length == numRows * numCol && row < numRows && n <= numCol
    requires normalise ==> n < numCol && RowsOf(input[..], numRows, numCol)[row][n] != 0.0
    modifies m
    ensures forall c :: 0 <= c < n ==> m[r, c] == CompanionEntry(RowsOf(input[..], numRows, numCol)[row], n, normalise, r, c)
    ensures forall r', c :: 0 <= r' < n && r' != r && 0 <= c < n ==> m[r', c] == old(m[r', c])
  {
    var c := 0;
    while c < n
      invariant 0 <= c <= n
      invariant forall c' :: 0 <= c' < c ==> m[r, c'] == CompanionEntry(RowsOf(input[..], numRows, numCol)[row], n, normalise, r, c')
      invariant forall r', c' :: 0 <= r' < n && r' != r && 0 <= c' < n ==> m[r', c'] == old(m[r', c'])
    {
      var entry := CompanionValue(input, numRows, numCol, row, n, normalise, r, c);
      m[r, c] := entry;
      c := c + 1;
    }
  }

  /** The value the loop body assigns to entry (r, c), read from the buffer. */
  method CompanionValue(input: array<real>, numRows: nat, numCol: nat, row: nat, n: nat, normalise: bool, r: nat, c: nat)
    returns (entry: real)
    requires r < n && c < n
    requires input.Length == numRows * numCol && row < numRows && n <= numCol
    requires normalise ==> n < numCol && RowsOf(input[..], numRows, numCol)[row][n] != 0.0
    ensures entry == CompanionEntry(RowsOf(input[..], numRows, numCol)[row], n, normalise, r, c)
  {
    var base := row * numCol;
    if r == c + 1 {
      entry := 1.0;
    } else if c == n - 1 {
      RowEntry(input[..], numRows, numCol, row, r);
      if normalise {
        RowEntry(input[..], numRows, numCol, row, n);
        entry := -input[base + r] / input[base + n];
      } else {
        entry := -input[base + r];
      }
    } else {
      entry := 0.0;
    }
  }

  lemma GridIsCompanion(m: array2<real>, coef: seq<real>, n: nat, normalise: bool)
    requires m.Length0 == n && m.Length1 == n && n <= |coef|
    requires normalise ==> n < |coef| && coef[n] != 0.0
    requires forall r, c :: 0 <= r < n && 0 <= c < n ==> m[r, c] == CompanionEntry(coef, n, normalise, r, c)
    ensures Grid(m) == Companion(coef, n, normalise)
  {
    var g, k := Grid(m), Companion(coef, n, normalise);
    forall r | 0 <= r < n
      ensures g[r] == k[r]
    {
      assert forall c :: 0 <= c < n ==> g[r][c] == k[r][c];
    }
  }

  // ---------------------------------------------------------------------------
  // find_roots: all eigenvalues, interleaved

  /** The eigenvalues Eigen reports for each row's normalised companion matrix. */
  function RootLists(lib: Library, buf: seq<real>, numRows: nat, numCol: nat): (evs: seq<seq<Complex>>)
    requires |buf| == numRows * numCol && numCol >= 1 && LeadingNonZero(buf, numRows, numCol)
    ensures |evs| == numRows
  {
    seq(numRows, i requires 0 <= i < numRows =>
      lib.eigenvalues(Companion(RowsOf(buf, numRows, numCol)[i], numCol - 1, true)))
  }

  /** One eigenvalue list as real, imaginary, real, imaginary, ... */
  function Interleave(ev: seq<Complex>): (out: seq<real>)
    ensures |out| == 2 * |ev|
  {
    if |ev| == 0 then []
    else Interleave(ev[..|ev| - 1]) + [ev[|ev| - 1].re, ev[|ev| - 1].im]
  }

  /** The whole output buffer: one interleaved block per input row, in order. */
  function Layout(evs: seq<seq<Complex>>): seq<real> {
    if |evs| == 0 then []
    else Layout(evs[..|evs| - 1]) + Interleave(evs[|evs| - 1])
  }

  predicate AllOfLength(evs: seq<seq<Complex>>, n: nat) {
    forall i :: 0 <= i < |evs| ==> |evs[i]| == n
  }

  lemma {:induction false} LayoutLength(evs: seq<seq<Complex>>, n: nat)
    requires AllOfLength(evs, n)
    ensures |Layout(evs)| == |evs| * (2 * n)
    decreases |evs|
  {
    if |evs| > 0 {
      var k := |evs| - 1;
      assert AllOfLength(evs[..k], n);
      LayoutLength(evs[..k], n);
      assert |evs| * (2 * n) == k * (2 * n) + 2 * n;
    }
  }

  lemma {:induction false} InterleavePosition(ev: seq<Complex>, j: nat)
    requires j < |ev|
    ensures Interleave(ev)[2 * j] == ev[j].re && Interleave(ev)[2 * j + 1] == ev[j].im
    decreases |ev|
  {
    if j < |ev| - 1 {
      InterleavePosition(ev[..|ev| - 1], j);
    }
  }

  /** Root j of row i is at offsets 2*i*n + 2*j (real part) and 2*i*n + 2*j + 1
      (imaginary part): each row fills its own block of 2*n entries. */
  lemma {:induction false} LayoutPosition(evs: seq<seq<Complex>>, n: nat, i: nat, j: nat)
    requires AllOfLength(evs, n) && i < |evs| && j < n
    ensures |Layout(evs)| == |evs| * (2 * n)
    ensures i * (2 * n) + 2 * j + 1 < |Layout(evs)|
    ensures Layout(evs)[i * (2 * n) + 2 * j] == evs[i][j].re
    ensures Layout(evs)[i * (2 * n) + 2 * j + 1] == evs[i][j].im
    decreases |evs|
  {
    LayoutLength(evs, n);
    var k := |evs| - 1;
    assert AllOfLength(evs[..k], n);
    LayoutLength(evs[..k], n);
    RowFits(i, |evs|, 2 * n);
    if i < k {
      LayoutPosition(evs[..k], n, i, j);
    } else {
      InterleavePosition(evs[k], j);
    }
  }

  /** `find_roots`: num_roots = num_col - 1; for every row, the normalised
      companion matrix's eigenvalues go to the row's block of the output,
      and nothing past the last block is written. */
  method FindRoots(lib: Library, input: array<real>, numRows: nat, numCol: nat, out: array<real>)
    requires numCol >= 1 && input.Length == numRows * numCol
    requires LeadingNonZero(input[..], numRows, numCol)
    requires out != input && out.Length >= numRows * (2 * (numCol - 1))
    requires OneEigenvaluePerRow(lib.eigenvalues)
    modifies out
    ensures out[..numRows * (2 * (numCol - 1))] == Layout(RootLists(lib, input[..], numRows, numCol))
    ensures out[numRows * (2 * (numCol - 1))..] == old(out[numRows * (2 * (numCol - 1))..])
  {
    var numRoots := numCol - 1;
    var block := 2 * numRoots;
    ghost var evs := RootLists(lib, input[..], numRows, numCol);
    var m := new real[numRoots, numRoots];
    var row: nat, start: nat := 0, 0;
    while row < numRows
      invariant 0 <= row <= numRows && start == row * block
      invariant start <= numRows * block
      invariant out[..start] == Layout(evs[..row])
      invariant forall p :: start <= p < out.Length ==> out[p] == old(out[p])
    {
      RowFits(row, numRows, block);
      FindRootsOfRow(lib, input, numRows, numCol, row, start, m, out);
      NextBlock(row, block);
      row, start := row + 1, start + block;
    }
    assert evs[..numRows] == evs;
  }

  /** One pass of the loop over the rows: fill the matrix, take its
      eigenvalues and write them to the row's block. */
  method FindRootsOfRow(lib: Library, input: array<real>, numRows: nat, numCol: nat, row: nat, start: nat,
                        m: array2<real>, out: array<real>)
    requires numCol >= 1 && input.Length == numRows * numCol
    requires LeadingNonZero(input[..], numRows, numCol)
    requires m.Length0 == numCol - 1 && m.Length1 == numCol - 1
    requires out != input && row < numRows && start + 2 * (numCol - 1) <= out.Length
    requires OneEigenvaluePerRow(lib.eigenvalues)
    requires out[..start] == Layout(RootLists(lib, input[..], numRows, numCol)[..row])
    modifies m, out
    ensures out[..start + 2 * (numCol - 1)] == Layout(RootLists(lib, input[..], numRows, numCol)[..row + 1])
    ensures forall p :: start + 2 * (numCol - 1) <= p < out.Length ==> out[p] == old(out[p])
  {
    ghost var evs := RootLists(lib, input[..], numRows, numCol);
    var numRoots := numCol - 1;
    FillCompanion(m, input, numRows, numCol, row, numRoots, true);
    var eigenvalues := lib.eigenvalues(Grid(m));
    assert eigenvalues == evs[row] && |eigenvalues| == numRoots;
    ghost var done := out[..start];
    WriteBlock(out, start, eigenvalues);
    assert out[..start + 2 * numRoots] == done + Interleave(eigenvalues) by {
      assert out[..start + 2 * numRoots] == out[..start] + out[start..start + 2 * numRoots];
    }
    assert evs[..row + 1][..row] == evs[..row];
  }

  /** The loop over `j`: root j of the row goes to offsets start + 2j and
      start + 2j + 1, and no other entry changes. */
  method WriteBlock(out: array<real>, start: nat, eigenvalues: seq<Complex>)
    requires start + 2 * |eigenvalues| <= out.Length
    modifies out
    ensures out[..start] == old(out[..start])
    ensures out[start..start + 2 * |eigenvalues|] == Interleave(eigenvalues)
    ensures forall p :: start + 2 * |eigenvalues| <= p < out.Length ==> out[p] == old(out[p])
  {
    var j := 0;
    while j < |eigenvalues|
      invariant 0 <= j <= |eigenvalues|
      invariant out[..start] == old(out[..start])
      invariant out[start..start + 2 * j] == Interleave(eigenvalues[..j])
      invariant forall p :: start + 2 * j <= p < out.Length ==> out[p] == old(out[p])
    {
      ghost var before := out[start..start + 2 * j];
      out[start + 2 * j] := eigenvalues[j].re;
      out[start + 2 * j + 1] := eigenvalues[j].im;
      assert out[start..start + 2 * j + 2] == before + [eigenvalues[j].re, eigenvalues[j].im];
      assert eigenvalues[..j + 1][..j] == eigenvalues[..j];
      j := j + 1;
    }
    assert eigenvalues[..|eigenvalues|] == eigenvalues;
  }

  lemma NextBlock(row: nat, block: nat)
    ensures (row + 1) * block == row * block + block
  {
  }

  // ---------------------------------------------------------------------------
  // single_pos_special_cubic / _quartic: pick one root per row

  /** The state of the selection loop: `best_match` and
      `smallest_imaginary_value_so_far`. */
  datatype Choice = Choice(index: nat, smallest: real)

  /** The selection loop over one row's eigenvalues, entered with the
      `best_match` left by the previous row: a root with positive real part
      replaces the current choice when its |imag| is strictly below the
      smallest seen so far, which starts at 1. */
  function Pick(ev: seq<Complex>, prev: nat): (c: Choice)
    ensures c.index == prev || c.index < |ev|
  {
    if |ev| == 0 then Choice(prev, 1.0)
    else
      var c := Pick(ev[..|ev| - 1], prev);
      var j := |ev| - 1;
      if ev[j].re > 0.0 && Abs(ev[j].im) < c.smallest then Choice(j, Abs(ev[j].im)) else c
  }

  /** The selection loop of one row, from the `best_match` the previous row left. */
  method SelectRoot(eigenvalues: seq<Complex>, prev: nat) returns (bestMatch: nat, smallest: real)
    ensures Choice(bestMatch, smallest) == Pick(eigenvalues, prev)
  {
    bestMatch := prev;
    smallest := 1.0;
    var j := 0;
    while j < |eigenvalues|
      invariant 0 <= j <= |eigenvalues|
      invariant Choice(bestMatch, smallest) == Pick(eigenvalues[..j], prev)
    {
      assert eigenvalues[..j + 1][..j] == eigenvalues[..j];
      if eigenvalues[j].re > 0.0 {
        if Abs(eigenvalues[j].im) < smallest {
          smallest := Abs(eigenvalues[j].im);
          bestMatch := j;
        }
      }
      j := j + 1;
    }
    assert eigenvalues[..|eigenvalues|] == eigenvalues;
  }

  /** A root the selection can choose at all: positive real part, |imag| < 1. */
  predicate Candidate(e: Complex) {
    e.re > 0.0 && Abs(e.im) < 1.0
  }

  /** What the selection loop guarantees: with no candidate the previous
      choice survives untouched; otherwise the choice is a candidate whose
      |imag| is the smallest among all roots with positive real part, and every
      earlier such root has a strictly larger |imag| (ties keep the earlier). */
  predicate PickCorrect(ev: seq<Complex>, prev: nat, c: Choice) {
    if forall j :: 0 <= j < |ev| ==> !Candidate(ev[j]) then c == Choice(prev, 1.0)
    else
      c.index < |ev| && Candidate(ev[c.index]) && c.smallest == Abs(ev[c.index].im)
      && (forall j :: 0 <= j < |ev| && ev[j].re > 0.0 ==> c.smallest <= Abs(ev[j].im))
      && (forall j :: 0 <= j < c.index && ev[j].re > 0.0 ==> c.smallest < Abs(ev[j].im))
  }

  lemma {:induction false} BestMatchSpec(ev: seq<Complex>, prev: nat)
    ensures PickCorrect(ev, prev, Pick(ev, prev))
    decreases |ev|
  {
    if |ev| > 0 {
      var k := |ev| - 1;
      var front := ev[..k];
      BestMatchSpec(front, prev);
      var c := Pick(front, prev);
      assert forall j :: 0 <= j < k ==> front[j] == ev[j];
      if forall j :: 0 <= j < k ==> !Candidate(front[j]) {
        assert c == Choice(prev, 1.0);
        if Candidate(ev[k]) {
          assert Pick(ev, prev) == Choice(k, Abs(ev[k].im));
        } else {
          assert forall j :: 0 <= j < |ev| ==> !Candidate(ev[j]);
        }
      } else {
        assert c.smallest < 1.0;
      }
    }
  }

  /** The use the routines are written for: when exactly one root with
      positive real part is real, and every other one has a non-zero
      imaginary part, that root is chosen. */
  lemma SinglePositiveRealRootChosen(ev: seq<Complex>, prev: nat, j: nat)
    requires j < |ev| && ev[j].re > 0.0 && ev[j].im == 0.0
    requires forall k :: 0 <= k < |ev| && k != j && ev[k].re > 0.0 ==> ev[k].im != 0.0
    ensures Pick(ev, prev).index == j
  {
    BestMatchSpec(ev, prev);
    assert Candidate(ev[j]);
    var c := Pick(ev, prev);
    assert c.smallest <= Abs(ev[j].im) == 0.0;
  }

  /** `best_match` after the rows so far: set to 0 once before the row loop and
      never reset, so each row starts from the previous row's choice. */
  function Carried(evs: seq<seq<Complex>>, k: nat): (best: nat)
    requires k >= 1 && AllOfLength(evs, k)
    ensures best < k
  {
    if |evs| == 0 then 0
    else Pick(evs[|evs| - 1], Carried(evs[..|evs| - 1], k)).index
  }

  /** The output buffer: per row, the real part of the eigenvalue at the
      row's `best_match`. */
  function Selected(evs: seq<seq<Complex>>, k: nat): (out: seq<real>)
    requires k >= 1 && AllOfLength(evs, k)
    ensures |out| == |evs|
  {
    if |evs| == 0 then []
    else Selected(evs[..|evs| - 1], k) + [evs[|evs| - 1][Carried(evs, k)].re]
  }

  lemma {:induction false} SelectedAt(evs: seq<seq<Complex>>, k: nat, i: nat)
    requires k >= 1 && AllOfLength(evs, k) && i < |evs|
    ensures AllOfLength(evs[..i], k) && AllOfLength(evs[..i + 1], k)
    ensures Carried(evs[..i + 1], k) == Pick(evs[i], Carried(evs[..i], k)).index
    ensures Selected(evs, k)[i] == evs[i][Carried(evs[..i + 1], k)].re
    decreases |evs|
  {
    assert evs[..i + 1][..i] == evs[..i];
    var n := |evs| - 1;
    if i < n {
      assert evs[..n][..i] == evs[..i] && evs[..n][..i + 1] == evs[..i + 1];
      SelectedAt(evs[..n], k, i);
    } else {
      assert evs[..i + 1] == evs;
    }
  }

  /** The stale index: a row with no candidate root reports the real part at
      the index chosen for an earlier row (index 0 when no earlier row chose
      one), whatever that eigenvalue is. */
  lemma StaleBestMatch(evs: seq<seq<Complex>>, k: nat, i: nat)
    requires k >= 1 && AllOfLength(evs, k) && i < |evs|
    requires forall j :: 0 <= j < k ==> !Candidate(evs[i][j])
    ensures AllOfLength(evs[..i], k)
    ensures Selected(evs, k)[i] == evs[i][Carried(evs[..i], k)].re
    ensures i == 0 ==> Selected(evs, k)[i] == evs[0][0].re
  {
    SelectedAt(evs, k, i);
    BestMatchSpec(evs[i], Carried(evs[..i], k));
  }

  /** A row whose only positive real root is real reports that root. */
  lemma SelectedSinglePositiveRoot(evs: seq<seq<Complex>>, k: nat, i: nat, j: nat)
    requires k >= 1 && AllOfLength(evs, k) && i < |evs| && j < k
    requires evs[i][j].re > 0.0 && evs[i][j].im == 0.0
    requires forall l :: 0 <= l < k && l != j && evs[i][l].re > 0.0 ==> evs[i][l].im != 0.0
    ensures Selected(evs, k)[i] == evs[i][j].re
  {
    SelectedAt(evs, k, i);
    SinglePositiveRealRootChosen(evs[i], Carried(evs[..i], k), j);
  }

  /** The eigenvalues Eigen reports for each row's un-normalised companion
      matrix built from the first `numRoots` entries of the row. */
  function SpecialRootLists(lib: Library, buf: seq<real>, numRows: nat, numCol: nat, numRoots: nat): (evs: seq<seq<Complex>>)
    requires |buf| == numRows * numCol && numRoots <= numCol
    ensures |evs| == numRows
  {
    seq(numRows, i requires 0 <= i < numRows =>
      lib.eigenvalues(Companion(RowsOf(buf, numRows, numCol)[i], numRoots, false)))
  }

  lemma SpecialRootListsLength(lib: Library, buf: seq<real>, numRows: nat, numCol: nat, numRoots: nat)
    requires |buf| == numRows * numCol && numRoots <= numCol
    requires OneEigenvaluePerRow(lib.eigenvalues)
    ensures AllOfLength(SpecialRootLists(lib, buf, numRows, numCol, numRoots), numRoots)
  {
    var evs := SpecialRootLists(lib, buf, numRows, numCol, numRoots);
    forall i | 0 <= i < numRows
      ensures |evs[i]| == numRoots
    {
      var mat := Companion(RowsOf(buf, numRows, numCol)[i], numRoots, false);
      assert |lib.eigenvalues(mat)| == |mat|;
    }
  }

  /** The body shared by both special routines, for `num_roots` roots:
      exactly one output slot per row, holding the real part of the selected
      eigenvalue; nothing past `num_rows` is written. */
  method SinglePosSpecial(lib: Library, input: array<real>, numRows: nat, numCol: nat, numRoots: nat, out: array<real>)
    requires numRoots >= 1 && numRoots <= numCol && input.Length == numRows * numCol
    requires out != input && out.Length >= numRows
    requires OneEigenvaluePerRow(lib.eigenvalues)
    modifies out
    ensures AllOfLength(SpecialRootLists(lib, input[..], numRows, numCol, numRoots), numRoots)
    ensures out[..numRows] == Selected(SpecialRootLists(lib, input[..], numRows, numCol, numRoots), numRoots)
    ensures out[numRows..] == old(out[numRows..])
  {
    ghost var evs := SpecialRootLists(lib, input[..], numRows, numCol, numRoots);
    SpecialRootListsLength(lib, input[..], numRows, numCol, numRoots);
    var m := new real[numRoots, numRoots];
    var bestMatch := 0;
    var row := 0;
    while row < numRows
      invariant 0 <= row <= numRows
      invariant AllOfLength(evs[..row], numRoots)
      invariant bestMatch == Carried(evs[..row], numRoots)
      invariant out[..row] == Selected(evs[..row], numRoots)
      invariant forall p :: row <= p < out.Length ==> out[p] == old(out[p])
    {
      bestMatch := SelectInRow(lib, input, numRows, numCol, numRoots, row, m, out, bestMatch, evs);
      row := row + 1;
    }
    assert evs[..numRows] == evs;
  }

  /** One pass of the loop over the rows: build the row's matrix, select its
      root starting from the previous row's `best_match`, write the slot. */
  method SelectInRow(lib: Library, input: array<real>, numRows: nat, numCol: nat, numRoots: nat, row: nat,
                     m: array2<real>, out: array<real>, bestMatch: nat, ghost evs: seq<seq<Complex>>)
    returns (next: nat)
    requires numRoots >= 1 && numRoots <= numCol && input.Length == numRows * numCol && row < numRows
    requires m.Length0 == numRoots && m.Length1 == numRoots
    requires out != input && out.Length >= numRows
    requires OneEigenvaluePerRow(lib.eigenvalues)
    requires evs == SpecialRootLists(lib, input[..], numRows, numCol, numRoots) && AllOfLength(evs, numRoots)
    requires AllOfLength(evs[..row], numRoots) && bestMatch == Carried(evs[..row], numRoots)
    requires out[..row] == Selected(evs[..row], numRoots)
    modifies m, out
    ensures AllOfLength(evs[..row + 1], numRoots) && next == Carried(evs[..row + 1], numRoots)
    ensures out[..row + 1] == Selected(evs[..row + 1], numRoots)
    ensures forall p :: row + 1 <= p < out.Length ==> out[p] == old(out[p])
  {
    FillCompanion(m, input, numRows, numCol, row, numRoots, false);
    var eigenvalues := lib.eigenvalues(Grid(m));
    assert eigenvalues == evs[row];
    var smallest;
    next, smallest := SelectRoot(eigenvalues, bestMatch);
    SelectionStep(evs, numRoots, row, next);
    out[row] := eigenvalues[next].re;
  }

  /** One more row of the selection: the carried index becomes this row's
      pick, and its eigenvalue's real part joins the output. */
  lemma SelectionStep(evs: seq<seq<Complex>>, k: nat, row: nat, next: nat)
    requires k >= 1 && AllOfLength(evs, k) && row < |evs|
    requires AllOfLength(evs[..row], k) && next == Pick(evs[row], Carried(evs[..row], k)).index
    ensures AllOfLength(evs[..row + 1], k) && Carried(evs[..row + 1], k) == next
    ensures Selected(evs[..row + 1], k) == Selected(evs[..row], k) + [evs[row][next].re]
  {
    assert evs[..row + 1][..row] == evs[..row];
    assert AllOfLength(evs[..row + 1], k);
  }

  /** `single_pos_special_cubic`: three roots per row. */
  method SinglePosSpecialCubic(lib: Library, input: array<real>, numRows: nat, numCol: nat, out: array<real>)
    requires numCol >= 3 && input.Length == numRows * numCol
    requires out != input && out.Length >= numRows
    requires OneEigenvaluePerRow(lib.eigenvalues)
    modifies out
    ensures AllOfLength(SpecialRootLists(lib, input[..], numRows, numCol, 3), 3)
    ensures out[..numRows] == Selected(SpecialRootLists(lib, input[..], numRows, numCol, 3), 3)
    ensures out[numRows..] == old(out[numRows..])
  {
    SinglePosSpecial(lib, input, numRows, numCol, 3, out);
  }

  /** `single_pos_special_quartic`: four roots per row. */
  method SinglePosSpecialQuartic(lib: Library, input: array<real>, numRows: nat, numCol: nat, out: array<real>)
    requires numCol >= 4 && input.Length == numRows * numCol
    requires out != input && out.Length >= numRows
    requires OneEigenvaluePerRow(lib.eigenvalues)
    modifies out
    ensures AllOfLength(SpecialRootLists(lib, input[..], numRows, numCol, 4), 4)
    ensures out[..numRows] == Selected(SpecialRootLists(lib, input[..], numRows, numCol, 4), 4)
    ensures out[numRows..] == old(out[numRows..])
  {
    SinglePosSpecial(lib, input, numRows, numCol, 4, out);
  }
}
