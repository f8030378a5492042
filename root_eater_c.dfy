/** root_eater.c: the older `find_roots`. It differs from the C++ version in
    one respect: the matrix loop has two separate `if`s and no `else`, so
    the entries that are neither on the subdiagonal nor in the last column
    are never written; Eigen's `MatrixXd(n, n)` leaves its storage
    uninitialised, so those entries hold whatever the storage held. The model
    takes that storage as a caller-supplied array whose contents are
    arbitrary. */
module RootEaterC {
  import opened Numerics
  import opened Polynomial
  import opened RootEaterCpp

  /** Entry (r, c) after one pass of the loop over an entry that held `keep`:
      the second `if` writes the last column, the first the subdiagonal, and
      any other entry keeps what it held. */
  function LoopEntry(coef: seq<real>, n: nat, r: nat, c: nat, keep: real): real
    requires r < n && c < n && n < |coef| && coef[n] != 0.0
  {
    if c == n - 1 then -coef[r] / coef[n]
    else if r == c + 1 then 1.0
    else keep
  }

  function OverwriteEntry(prior: seq<seq<real>>, coef: seq<real>, n: nat, r: nat, c: nat): real
    requires r < n && c < n && n < |coef| && coef[n] != 0.0
    requires |prior| == n && forall i :: 0 <= i < n ==> |prior[i]| == n
  {
    LoopEntry(coef, n, r, c, prior[r][c])
  }

  function OverwriteCompanion(prior: seq<seq<real>>, coef: seq<real>, n: nat): (m: seq<seq<real>>)
    requires n < |coef| && coef[n] != 0.0
    requires |prior| == n && forall i :: 0 <= i < n ==> |prior[i]| == n
    ensures |m| == n && forall r :: 0 <= r < n ==> |m[r]| == n
  {
    seq(n, r requires 0 <= r < n => seq(n, c requires 0 <= c < n => OverwriteEntry(prior, coef, n, r, c)))
  }

  /** The entries the loop writes: the subdiagonal and the last column. */
  predicate Written(n: nat, r: nat, c: nat) {
    r == c + 1 || c + 1 == n
  }

  /** The loop's matrix is the companion matrix exactly when the storage it
      starts from is zero at every entry the loop does not write. */
  lemma OverwriteIsCompanionIff(prior: seq<seq<real>>, coef: seq<real>, n: nat)
    requires n < |coef| && coef[n] != 0.0
    requires |prior| == n && forall i :: 0 <= i < n ==> |prior[i]| == n
    ensures OverwriteCompanion(prior, coef, n) == Companion(coef, n, true)
            <==> forall r, c :: 0 <= r < n && 0 <= c < n && !Written(n, r, c) ==> prior[r][c] == 0.0
  {
    var w, k := OverwriteCompanion(prior, coef, n), Companion(coef, n, true);
    if forall r, c :: 0 <= r < n && 0 <= c < n && !Written(n, r, c) ==> prior[r][c] == 0.0 {
      forall r | 0 <= r < n
        ensures w[r] == k[r]
      {
        assert forall c :: 0 <= c < n ==> w[r][c] == k[r][c];
      }
    } else {
      var r, c :| 0 <= r < n && 0 <= c < n && !Written(n, r, c) && prior[r][c] != 0.0;
      assert w[r][c] != k[r][c];
    }
  }

  /** Writing the same pattern again replaces every written entry and keeps
      the rest: the unwritten entries keep their original values across all
      rows. */
  lemma OverwriteTwice(prior: seq<seq<real>>, a: seq<real>, b: seq<real>, n: nat)
    requires n < |a| && a[n] != 0.0 && n < |b| && b[n] != 0.0
    requires |prior| == n && forall i :: 0 <= i < n ==> |prior[i]| == n
    ensures OverwriteCompanion(OverwriteCompanion(prior, a, n), b, n) == OverwriteCompanion(prior, b, n)
  {
    var once := OverwriteCompanion(prior, a, n);
    var x, y := OverwriteCompanion(once, b, n), OverwriteCompanion(prior, b, n);
    forall r | 0 <= r < n
      ensures x[r] == y[r]
    {
      assert forall c :: 0 <= c < n ==> x[r][c] == y[r][c];
    }
  }

  /** The matrix loop of root_eater.c: ones on the subdiagonal and the
      normalised negated coefficients in the last column; no other entry is
      assigned. */
  method FillCompanionC(m: array2<real>, input: array<real>, numRows: nat, numCol: nat, row: nat, n: nat)
    requires m.Length0 == n && m.Length1 == n
    requires input.Length == numRows * numCol && row < numRows && n < numCol
    requires RowsOf(input[..], numRows, numCol)[row][n] != 0.0
    modifies m
    ensures Grid(m) == OverwriteCompanion(old(Grid(m)), RowsOf(input[..], numRows, numCol)[row], n)
  {
    ghost var prior := Grid(m);
    assert forall r, c :: 0 <= r < n && 0 <= c < n ==> prior[r][c] == m[r, c];
    ghost var coef := RowsOf(input[..], numRows, numCol)[row];
    var r := 0;
    while r < n
      invariant 0 <= r <= n
      invariant forall r', c' :: 0 <= r' < n && 0 <= c' < n ==>
        m[r', c'] == if r' < r then LoopEntry(coef, n, r', c', prior[r'][c']) else prior[r'][c']
    {
      FillRowC(m, input, numRows, numCol, row, n, r);
      r := r + 1;
    }
    GridIsOverwrite(m, prior, coef, n);
  }

  /** One pass of the inner loop, over matrix row r. */
  method FillRowC(m: array2<real>, input: array<real>, numRows: nat, numCol: nat, row: nat, n: nat, r: nat)
    requires m.Length0 == n && m.Length1 == n && r < n
    requires input.Length == numRows * numCol && row < numRows && n < numCol
    requires RowsOf(input[..], numRows, numCol)[row][n] != 0.0
    modifies m
    ensures forall r', c' :: 0 <= r' < n && 0 <= c' < n ==>
      m[r', c'] == if r' == r then LoopEntry(RowsOf(input[..], numRows, numCol)[row], n, r', c', old(m[r', c'])) else old(m[r', c'])
  {
    ghost var coef := RowsOf(input[..], numRows, numCol)[row];
    var c := 0;
    while c < n
      invariant 0 <= c <= n
      invariant forall r', c' :: 0 <= r' < n && 0 <= c' < n ==>
        m[r', c'] == if r' == r && c' < c then LoopEntry(coef, n, r', c', old(m[r', c'])) else old(m[r', c'])
    {
      if r == c + 1 {
        m[r, c] := 1.0;
      }
      if c == n - 1 {
        var entry := LastColumnValue(input, numRows, numCol, row, n, r);
        m[r, c] := entry;
      }
      c := c + 1;
    }
  }

  /** `-input_array[input_row*num_col + polymat_row] / input_array[input_row*num_col + num_roots]`. */
  method LastColumnValue(input: array<real>, numRows: nat, numCol: nat, row: nat, n: nat, r: nat) returns (entry: real)
    requires input.Length == numRows * numCol && row < numRows && r < n < numCol
    requires RowsOf(input[..], numRows, numCol)[row][n] != 0.0
    ensures entry == -RowsOf(input[..], numRows, numCol)[row][r] / RowsOf(input[..], numRows, numCol)[row][n]
  {
    var base := row * numCol;
    RowEntry(input[..], numRows, numCol, row, r);
    RowEntry(input[..], numRows, numCol, row, n);
    entry := -input[base + r] / input[base + n];
  }

  lemma GridIsOverwrite(m: array2<real>, prior: seq<seq<real>>, coef: seq<real>, n: nat)
    requires m.Length0 == n && m.Length1 == n && n < |coef| && coef[n] != 0.0
    requires |prior| == n && forall i :: 0 <= i < n ==> |prior[i]| == n
    requires forall r, c :: 0 <= r < n && 0 <= c < n ==> m[r, c] == LoopEntry(coef, n, r, c, prior[r][c])
    ensures Grid(m) == OverwriteCompanion(prior, coef, n)
  {
    var g, k := Grid(m), OverwriteCompanion(prior, coef, n);
    forall r | 0 <= r < n
      ensures g[r] == k[r]
    {
      assert forall c :: 0 <= c < n ==> g[r][c] == k[r][c];
    }
  }

  /** The eigenvalues Eigen reports for each row when the matrix storage
      started out as `prior`. */
  function RootListsC(lib: Library, buf: seq<real>, numRows: nat, numCol: nat, prior: seq<seq<real>>): (evs: seq<seq<Complex>>)
    requires |buf| == numRows * numCol && numCol >= 1 && LeadingNonZero(buf, numRows, numCol)
    requires |prior| == numCol - 1 && forall i :: 0 <= i < numCol - 1 ==> |prior[i]| == numCol - 1
    ensures |evs| == numRows
  {
    seq(numRows, i requires 0 <= i < numRows =>
      lib.eigenvalues(OverwriteCompanion(prior, RowsOf(buf, numRows, numCol)[i], numCol - 1)))
  }

  /** `find_roots` of root_eater.c, with `m` standing for the uninitialised
      storage of `companion_polymat`: the output layout is the C++ one, but the
      matrices carry the storage's prior contents at the unwritten entries. */
  method FindRoots(lib: Library, input: array<real>, numRows: nat, numCol: nat, m: array2<real>, out: array<real>)
    requires numCol >= 1 && input.Length == numRows * numCol
    requires LeadingNonZero(input[..], numRows, numCol)
    requires m.Length0 == numCol - 1 && m.Length1 == numCol - 1
    requires out != input && out.Length >= numRows * (2 * (numCol - 1))
    requires OneEigenvaluePerRow(lib.eigenvalues)
    modifies out, m
    ensures out[..numRows * (2 * (numCol - 1))] == Layout(RootListsC(lib, input[..], numRows, numCol, old(Grid(m))))
    ensures out[numRows * (2 * (numCol - 1))..] == old(out[numRows * (2 * (numCol - 1))..])
  {
    ghost var prior := Grid(m);
    ghost var inp := input[..];
    RowLoop(lib, input, numRows, numCol, m, out, prior);
    ghost var evs := RootListsC(lib, inp, numRows, numCol, prior);
    assert evs[..numRows] == evs;
    ghost var n := numRows * (2 * (numCol - 1));
    assert out[n..] == old(out[n..]) by {
      assert forall p :: n <= p < out.Length ==> out[p] == old(out[p]);
    }
  }

  /** The loop over the rows of `find_roots`. */
  method RowLoop(lib: Library, input: array<real>, numRows: nat, numCol: nat, m: array2<real>, out: array<real>,
                 ghost prior: seq<seq<real>>)
    requires numCol >= 1 && input.Length == numRows * numCol
    requires LeadingNonZero(input[..], numRows, numCol)
    requires m.Length0 == numCol - 1 && m.Length1 == numCol - 1 && prior == Grid(m)
    requires out != input && out.Length >= numRows * (2 * (numCol - 1))
    requires OneEigenvaluePerRow(lib.eigenvalues)
    modifies out, m
    ensures Progress(lib, input[..], numRows, numCol, prior, numRows, Grid(m), out[..numRows * (2 * (numCol - 1))])
    ensures forall p :: numRows * (2 * (numCol - 1)) <= p < out.Length ==> out[p] == old(out[p])
  {
    var numRoots := numCol - 1;
    var block := 2 * numRoots;
    ghost var inp := input[..];
    var row: nat, start: nat := 0, 0;
    while row < numRows
      invariant 0 <= row <= numRows && start == row * block
      invariant start <= numRows * block
      invariant input[..] == inp
      invariant Progress(lib, inp, numRows, numCol, prior, row, Grid(m), out[..start])
      invariant forall p :: start <= p < out.Length ==> out[p] == old(out[p])
    {
      RowFits(row, numRows, block);
      FindRootsOfRow(lib, input, numRows, numCol, row, start, m, out, prior);
      NextBlock(row, block);
      row, start := row + 1, start + block;
    }
  }

  /** The state of the loop before row `row`: the storage as `Storage` says
      and the output prefix holding the eigenvalues of the rows before. */
  predicate Progress(lib: Library, buf: seq<real>, numRows: nat, numCol: nat, prior: seq<seq<real>>, row: nat,
                     grid: seq<seq<real>>, done: seq<real>)
  {
    |buf| == numRows * numCol && numCol >= 1 && LeadingNonZero(buf, numRows, numCol) && row <= numRows
    && |prior| == numCol - 1 && (forall i :: 0 <= i < numCol - 1 ==> |prior[i]| == numCol - 1)
    && grid == Storage(prior, buf, numRows, numCol, row)
    && done == Layout(RootListsC(lib, buf, numRows, numCol, prior)[..row])
  }

  /** What the matrix storage holds before row `row` is processed: the original
      contents for the first row, afterwards the previous row's pattern
      written over them. */
  function Storage(prior: seq<seq<real>>, buf: seq<real>, numRows: nat, numCol: nat, row: nat): (g: seq<seq<real>>)
    requires |buf| == numRows * numCol && numCol >= 1 && LeadingNonZero(buf, numRows, numCol) && row <= numRows
    requires |prior| == numCol - 1 && forall i :: 0 <= i < numCol - 1 ==> |prior[i]| == numCol - 1
    ensures |g| == numCol - 1 && forall i :: 0 <= i < numCol - 1 ==> |g[i]| == numCol - 1
  {
    if row == 0 then prior else OverwriteCompanion(prior, RowsOf(buf, numRows, numCol)[row - 1], numCol - 1)
  }

  /** One pass of the loop over the rows. Writing the pattern of one row over
      the previous row's pattern leaves the original storage at the unwritten
      entries. */
  method FindRootsOfRow(lib: Library, input: array<real>, numRows: nat, numCol: nat, row: nat, start: nat,
                        m: array2<real>, out: array<real>,
                        ghost prior: seq<seq<real>>)
    requires numCol >= 1 && input.Length == numRows * numCol
    requires LeadingNonZero(input[..], numRows, numCol)
    requires m.Length0 == numCol - 1 && m.Length1 == numCol - 1 && row < numRows
    requires out != input && start + 2 * (numCol - 1) <= out.Length
    requires Progress(lib, input[..], numRows, numCol, prior, row, Grid(m), out[..start])
    requires OneEigenvaluePerRow(lib.eigenvalues)
    modifies m, out
    ensures Progress(lib, input[..], numRows, numCol, prior, row + 1, Grid(m), out[..start + 2 * (numCol - 1)])
    ensures forall p :: start + 2 * (numCol - 1) <= p < out.Length ==> out[p] == old(out[p])
  {
    ghost var rows := RowsOf(input[..], numRows, numCol);
    ghost var evs := RootListsC(lib, input[..], numRows, numCol, prior);
    var numRoots := numCol - 1;
    FillCompanionC(m, input, numRows, numCol, row, numRoots);
    if row > 0 {
      OverwriteTwice(prior, rows[row - 1], rows[row], numRoots);
    }
    var eigenvalues := lib.eigenvalues(Grid(m));
    assert eigenvalues == evs[row] && |eigenvalues| == numRoots;
    ghost var done := out[..start];
    WriteBlock(out, start, eigenvalues);
    assert out[..start + 2 * numRoots] == done + Interleave(eigenvalues) by {
      assert out[..start + 2 * numRoots] == out[..start] + out[start..start + 2 * numRoots];
    }
    assert evs[..row + 1][..row] == evs[..row];
  }

  /** The discrepancy on a concrete input: for a quadratic row [c0, c1, 1] and
      storage that held 7 everywhere, entry (0, 0) of the matrix handed to
      Eigen is 7 where the companion matrix has 0. */
  lemma UnwrittenEntryObserved(c0: real, c1: real)
    ensures var prior := [[7.0, 7.0], [7.0, 7.0]];
            var coef := [c0, c1, 1.0];
            OverwriteCompanion(prior, coef, 2)[0][0] == 7.0
            && Companion(coef, 2, true)[0][0] == 0.0
            && OverwriteCompanion(prior, coef, 2) != Companion(coef, 2, true)
  {
    var prior := [[7.0, 7.0], [7.0, 7.0]];
    var coef := [c0, c1, 1.0];
    assert OverwriteCompanion(prior, coef, 2)[0][0] != Companion(coef, 2, true)[0][0];
  }
}
