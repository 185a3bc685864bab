/**
 * The tabular data of the ingestion path: a parsed CSV (a pandas DataFrame,
 * column-oriented), its rows as `iterrows()` yields them, and the numeric view
 * of a column that the feature transform works on.
 */
module Tables {
  import opened Wrappers
  import Series

  /** One scalar of a table: a number, a string, a boolean, or NaN/None. */
  datatype Cell = Num(x: real) | Text(s: string) | Flag(b: bool) | Missing

  /** The exceptions that can escape the ingestion path and reach its rollback handler. */
  datatype Error =
    | NonNumericColumn(column: string)   // TypeError from diff/rolling/compare on a non-numeric column
    | DuplicateKeyword(keyword: string)  // TypeError: got multiple values for keyword argument
    | ArchiveFault(message: string)      // any non-BadZipFile exception from opening the archive or one of its entries
    | StoreRefused                       // the store refused the commit

  /** Column name to column values; every column has `height` entries. */
  datatype RawTable = RawTable(data: map<string, seq<Cell>>, height: nat)

  predicate Rectangular(t: RawTable)
  {
    forall c :: c in t.data ==> |t.data[c]| == t.height
  }

  /** A DataFrame: rectangular by construction, as every parsed CSV is. */
  type Table = t: RawTable | Rectangular(t) witness RawTable(map[], 0)

  /** Row `i` as `iterrows()` yields it: every column's `i`-th value. */
  function Row(t: Table, i: nat): (row: map<string, Cell>)
    requires i < t.height
    ensures row.Keys == t.data.Keys
    ensures forall c :: c in t.data ==> row[c] == t.data[c][i]
  {
    map c | c in t.data :: t.data[c][i]
  }

  /** The cell of a numeric value (NaN for a missing one). */
  function FromNumber(x: Option<real>): Cell
  {
    if x.Some? then Num(x.value) else Missing
  }

  /** Stores a numeric column as cells. */
  function FromNumeric(v: Series.Column): (cells: seq<Cell>)
    ensures |cells| == |v|
    ensures forall i :: 0 <= i < |v| ==> cells[i] == FromNumber(v[i])
  {
    seq(|v|, i requires 0 <= i < |v| => FromNumber(v[i]))
  }

  /** Stores a boolean column as cells. */
  function FromFlags(b: seq<bool>): (cells: seq<Cell>)
    ensures |cells| == |b|
    ensures forall i :: 0 <= i < |b| ==> cells[i] == Flag(b[i])
  {
    seq(|b|, i requires 0 <= i < |b| => Flag(b[i]))
  }

  predicate IsNumeric(c: Cell)
  {
    c.Num? || c.Missing?
  }

  /**
   * A column usable by arithmetic: numbers and NaN only. Any text (and, in this
   * model, any boolean) makes pandas' arithmetic raise `TypeError`.
   */
  function NumericView(cells: seq<Cell>): (r: Option<Series.Column>)
    ensures r.Some? <==> forall i :: 0 <= i < |cells| ==> IsNumeric(cells[i])
    ensures r.Some? ==> |r.value| == |cells| && FromNumeric(r.value) == cells
  {
    if forall i :: 0 <= i < |cells| ==> IsNumeric(cells[i]) then
      Some(seq(|cells|, i requires 0 <= i < |cells| => if cells[i].Num? then Some(cells[i].x) else None))
    else
      None
  }

  /** Storing a numeric column and reading it back gives the column itself. */
  lemma NumericRoundTrip(v: Series.Column)
    ensures NumericView(FromNumeric(v)) == Some(v)
  {
    var cells := FromNumeric(v);
    assert forall i :: 0 <= i < |cells| ==> IsNumeric(cells[i]);
    var w := NumericView(cells).value;
    assert |w| == |v|;
    forall i | 0 <= i < |v|
      ensures w[i] == v[i]
    {
      assert cells[i] == FromNumber(v[i]);
      if v[i].Some? {
        assert cells[i] == Num(v[i].value);
      }
    }
    assert w == v;
  }
}
