/** Reading the loaded table: both model_building files convert the 'total'
    and 'free' columns with `float()` inside a bare `try`, and report a fixed
    message when any cell fails. */
module DataTable {
  import opened Numerics
  import opened Residuals

  /** A cell of the loaded table: a value `float()` accepts, or one it rejects. */
  datatype Cell = Numeric(v: real) | NonNumeric

  /** One row of `associated_data`, with its 'total' and 'free' columns. */
  datatype DataRow = DataRow(total: Cell, free: Cell)

  /** How a method ends: with the string it returns, or with an exception
      that propagates to the caller. */
  datatype Outcome = Code(message: string) | Raised

  const ConversionMessage: string := "could not convert data to numeric form! Are you sure your input protein binding dataset is only non-numeric characters?"

  /** The two columns as floats, or None when the table is missing or a cell
      does not convert (the bare `except` of `model_fit`). */
  datatype Columns = Columns(x: seq<real>, y: seq<real>)

  function Numbers(cells: seq<Cell>): (r: Option<seq<real>>)
    ensures r.Some? <==> forall i :: 0 <= i < |cells| ==> cells[i].Numeric?
    ensures r.Some? ==> |r.value| == |cells| && forall i :: 0 <= i < |cells| ==> r.value[i] == cells[i].v
  {
    if |cells| == 0 then Some([])
    else
      var front := Numbers(cells[..|cells| - 1]);
      var last := cells[|cells| - 1];
      if front.Some? && last.Numeric? then Some(front.value + [last.v])
      else
        assert front.None? ==> !cells[..|cells| - 1][Unconverted(cells[..|cells| - 1])].Numeric?;
        None
  }

  /** The position of a cell `float()` rejects. */
  ghost function Unconverted(cells: seq<Cell>): (i: nat)
    requires exists i :: 0 <= i < |cells| && !cells[i].Numeric?
    ensures i < |cells| && !cells[i].Numeric?
  {
    var i :| 0 <= i < |cells| && !cells[i].Numeric?; i
  }

  function Totals(rows: seq<DataRow>): (c: seq<Cell>)
    ensures |c| == |rows|
  {
    seq(|rows|, i requires 0 <= i < |rows| => rows[i].total)
  }

  function Frees(rows: seq<DataRow>): (c: seq<Cell>)
    ensures |c| == |rows|
  {
    seq(|rows|, i requires 0 <= i < |rows| => rows[i].free)
  }

  function Convert(data: Option<seq<DataRow>>): (r: Option<Columns>)
    ensures r.Some? ==> data.Some? && |r.value.x| == |r.value.y| == |data.value|
  {
    if data.None? then None
    else
      var x := Numbers(Totals(data.value));
      var y := Numbers(Frees(data.value));
      if x.Some? && y.Some? then Some(Columns(x.value, y.value)) else None
  }

  /** The conversion succeeds exactly when every cell of both columns is
      numeric, and then reads each row's two cells in order. */
  lemma ConvertReadsCells(data: Option<seq<DataRow>>)
    ensures Convert(data).Some? <==>
      data.Some? && forall i :: 0 <= i < |data.value| ==> data.value[i].total.Numeric? && data.value[i].free.Numeric?
    ensures Convert(data).Some? ==>
      forall i :: 0 <= i < |data.value| ==> Convert(data).value.x[i] == data.value[i].total.v && Convert(data).value.y[i] == data.value[i].free.v
  {
    if data.Some? {
      var rows := data.value;
      var x := Numbers(Totals(rows));
      var y := Numbers(Frees(rows));
      assert forall i :: 0 <= i < |rows| ==> Totals(rows)[i] == rows[i].total && Frees(rows)[i] == rows[i].free;
      assert x.None? ==> !rows[Unconverted(Totals(rows))].total.Numeric?;
      assert y.None? ==> !rows[Unconverted(Frees(rows))].free.Numeric?;
    }
  }

  /** The rows have been read as floats, there is at least one total and
      every total is positive, so the spanning grid can be built: np.min of
      no totals raises, and np.log of a total that is zero or negative gives
      -inf or nan, on which np.arange raises. */
  predicate PositiveTotals(x: seq<real>) {
    |x| > 0 && Positive(x)
  }
}
