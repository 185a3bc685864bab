/**
 * Feature engineering on a parsed table (app.py, add_delta_and_oscillator and
 * engineer_features). The DataFrame is updated in place, so it is a class,
 * `Frame`, whose methods are proved against the pure specification
 * `Engineer`; the lemmas below state what `Engineer` promises.
 */
module Features {
  import opened Wrappers
  import opened Tables
  import Series

  const AvgBatSpeed: string := "avg_bat_speed"
  const BatterRunValue: string := "batter_run_value"
  /** The columns that get delta and oscillator columns, in this order, when present. */
  const FeatureColumns: seq<string> := [AvgBatSpeed, BatterRunValue]

  const SignalSource: string := "oscillator_avg_bat_speed"
  const CashoutColumn: string := "cashout_signal"
  const PickColumn: string := "pick_tracked"

  function DeltaName(col: string): (name: string)
    ensures |name| > |col|
  {
    "delta_" + col
  }

  function OscillatorName(col: string): (name: string)
    ensures |name| > |col|
  {
    "oscillator_" + col
  }

  // ---------------------------------------------------------------------------
  // Specification

  /** `add_delta_and_oscillator(df, col)`: raises unless the column is numeric. */
  function WithFeatures(t: Table, col: string, sqrt: Series.SqrtFn): (r: Result<Table, Error>)
    requires col in t.data
    ensures r.Err? <==> NumericView(t.data[col]).None?
    ensures r.Err? ==> r.error == NonNumericColumn(col)
    ensures r.Ok? ==> r.value.height == t.height
    ensures r.Ok? ==> r.value.data.Keys == t.data.Keys + {DeltaName(col), OscillatorName(col)}
    ensures r.Ok? ==> forall c :: c in t.data && c != DeltaName(col) && c != OscillatorName(col) ==>
      r.value.data[c] == t.data[c]
  {
    match NumericView(t.data[col])
    case None => Err(NonNumericColumn(col))
    case Some(v) =>
      Ok(RawTable(t.data[DeltaName(col) := FromNumeric(Series.Delta(v))]
                        [OscillatorName(col) := FromNumeric(Series.Oscillator(v, sqrt))], t.height))
  }

  /**
   * The loop of `engineer_features` over the remaining feature columns: it
   * keeps the rows and every column, and an error it raises names one of them.
   */
  function WithFeatureColumns(t: Table, cols: seq<string>, sqrt: Series.SqrtFn): (r: Result<Table, Error>)
    ensures r.Ok? ==> r.value.height == t.height && t.data.Keys <= r.value.data.Keys
    ensures r.Err? ==> r.error.NonNumericColumn? && r.error.column in cols
    decreases |cols|
  {
    if cols == [] then Ok(t)
    else if cols[0] in t.data then
      match WithFeatures(t, cols[0], sqrt)
      case Err(e) => Err(e)
      case Ok(u) => WithFeatureColumns(u, cols[1..], sqrt)
    else WithFeatureColumns(t, cols[1..], sqrt)
  }

  /**
   * The signal step: `cashout_signal = oscillator_avg_bat_speed < -2`,
   * `pick_tracked = True`. It raises exactly when the oscillator column exists
   * and is not numeric; otherwise it adds the two flag columns when the
   * oscillator column exists, and nothing else.
   */
  function WithSignal(t: Table): (r: Result<Table, Error>)
    ensures r.Err? <==> SignalSource in t.data && NumericView(t.data[SignalSource]).None?
    ensures r.Err? ==> r.error == NonNumericColumn(SignalSource)
    ensures r.Ok? ==> && r.value.height == t.height
                      && r.value.data.Keys == t.data.Keys + (if SignalSource in t.data then {CashoutColumn, PickColumn} else {})
                      && forall c :: c in t.data && c != CashoutColumn && c != PickColumn ==> r.value.data[c] == t.data[c]
  {
    if SignalSource !in t.data then Ok(t)
    else
      match NumericView(t.data[SignalSource])
      case None => Err(NonNumericColumn(SignalSource))
      case Some(o) =>
        Ok(RawTable(t.data[CashoutColumn := FromFlags(Series.Signal(o))]
                          [PickColumn := FromFlags(seq(t.height, _ => true))], t.height))
  }

  /**
   * `engineer_features(df)` as a value: the engineered table, which keeps the
   * rows and every column, or the exception it raises, which names a feature
   * column or the oscillator column.
   */
  function Engineer(t: Table, sqrt: Series.SqrtFn): (r: Result<Table, Error>)
    ensures r.Ok? ==> r.value.height == t.height && t.data.Keys <= r.value.data.Keys
    ensures r.Err? ==> r.error.NonNumericColumn? && r.error.column in {AvgBatSpeed, BatterRunValue, SignalSource}
  {
    match WithFeatureColumns(t, FeatureColumns, sqrt)
    case Err(e) => Err(e)
    case Ok(u) => WithSignal(u)
  }

  /** The column names involved are pairwise distinct, and the signal reads the bat-speed oscillator. */
  lemma ColumnNames()
    ensures OscillatorName(AvgBatSpeed) == SignalSource
    ensures DeltaName(AvgBatSpeed) != SignalSource && CashoutColumn != PickColumn
    ensures BatterRunValue !in {DeltaName(AvgBatSpeed), SignalSource}
    ensures SignalSource !in {DeltaName(BatterRunValue), OscillatorName(BatterRunValue)}
    ensures CashoutColumn !in {DeltaName(AvgBatSpeed), SignalSource, DeltaName(BatterRunValue), OscillatorName(BatterRunValue)}
    ensures PickColumn !in {DeltaName(AvgBatSpeed), SignalSource, DeltaName(BatterRunValue), OscillatorName(BatterRunValue)}
  {
  }

  /** The columns `engineer_features` writes for a table with columns `keys`. */
  function Written(keys: set<string>): (w: set<string>)
    ensures AvgBatSpeed in keys ==> DeltaName(AvgBatSpeed) in w && SignalSource in w
    ensures AvgBatSpeed in keys || SignalSource in keys ==> CashoutColumn in w && PickColumn in w
  {
    ColumnNames();
    (if AvgBatSpeed in keys then {DeltaName(AvgBatSpeed), OscillatorName(AvgBatSpeed)} else {})
    + (if BatterRunValue in keys then {DeltaName(BatterRunValue), OscillatorName(BatterRunValue)} else {})
    + (if AvgBatSpeed in keys || SignalSource in keys then {CashoutColumn, PickColumn} else {})
  }

  /** The numeric view of a column that is known to be numeric. */
  function Values(t: Table, col: string): Series.Column
    requires col in t.data && NumericView(t.data[col]).Some?
  {
    NumericView(t.data[col]).value
  }

  // ---------------------------------------------------------------------------
  // Properties of the specification

  /** The first feature step: bat speed, when present. */
  function FirstStep(t: Table, sqrt: Series.SqrtFn): Result<Table, Error>
  {
    if AvgBatSpeed in t.data then WithFeatures(t, AvgBatSpeed, sqrt) else Ok(t)
  }

  /** The second feature step: batter run value, when present. */
  function SecondStep(u: Table, sqrt: Series.SqrtFn): Result<Table, Error>
  {
    if BatterRunValue in u.data then WithFeatures(u, BatterRunValue, sqrt) else Ok(u)
  }

  /** The loop over the feature columns is the bat-speed step, then the run-value step, then the signal step. */
  lemma FeatureStepCommutes(t: Table, sqrt: Series.SqrtFn)
    ensures Engineer(t, sqrt) ==
      match FirstStep(t, sqrt)
      case Err(e) => Err(e)
      case Ok(u) =>
        match SecondStep(u, sqrt)
        case Err(e) => Err(e)
        case Ok(x) => WithSignal(x)
  {
    assert FeatureColumns[1..] == [BatterRunValue];
    assert FeatureColumns[1..][1..] == [];
    var a := FirstStep(t, sqrt);
    assert WithFeatureColumns(t, FeatureColumns, sqrt) ==
      match a
      case Err(e) => Err(e)
      case Ok(u) => WithFeatureColumns(u, [BatterRunValue], sqrt);
    if a.Ok? {
      var u := a.value;
      assert WithFeatureColumns(u, [BatterRunValue], sqrt) == SecondStep(u, sqrt);
    }
  }

  /**
   * `engineer_features` raises exactly when a present feature column is not
   * numeric, or when the table brings its own non-numeric
   * `oscillator_avg_bat_speed` column and no bat-speed column to overwrite it.
   */
  lemma EngineerFailsIff(t: Table, sqrt: Series.SqrtFn)
    ensures Engineer(t, sqrt).Err? <==>
      || (AvgBatSpeed in t.data && NumericView(t.data[AvgBatSpeed]).None?)
      || (BatterRunValue in t.data && NumericView(t.data[BatterRunValue]).None?)
      || (AvgBatSpeed !in t.data && SignalSource in t.data && NumericView(t.data[SignalSource]).None?)
  {
    FeatureStepCommutes(t, sqrt);
    var a := FirstStep(t, sqrt);
    if a.Ok? {
      var u := a.value;
      FirstStepKeeps(t, sqrt);
      var b := SecondStep(u, sqrt);
      if b.Ok? {
        SecondStepKeeps(u, sqrt);
      }
    }
  }

  /**
   * After the bat-speed step the run-value column is as it was, and the
   * oscillator column exists when either column did; it is numeric when it
   * was computed, and the table is unchanged when there was no bat speed.
   */
  lemma FirstStepKeeps(t: Table, sqrt: Series.SqrtFn)
    requires FirstStep(t, sqrt).Ok?
    ensures var u := FirstStep(t, sqrt).value;
      && (BatterRunValue in u.data <==> BatterRunValue in t.data)
      && (BatterRunValue in t.data ==> u.data[BatterRunValue] == t.data[BatterRunValue])
      && (AvgBatSpeed in t.data ==> SignalSource in u.data && NumericView(u.data[SignalSource]).Some?)
      && (AvgBatSpeed !in t.data ==> u == t)
  {
    ColumnNames();
    if AvgBatSpeed in t.data {
      NumericRoundTrip(Series.Oscillator(Values(t, AvgBatSpeed), sqrt));
    }
  }

  /** The run-value step leaves the oscillator column of bat speed as it was. */
  lemma SecondStepKeeps(u: Table, sqrt: Series.SqrtFn)
    requires SecondStep(u, sqrt).Ok?
    ensures var x := SecondStep(u, sqrt).value;
      && (SignalSource in x.data <==> SignalSource in u.data)
      && (SignalSource in u.data ==> x.data[SignalSource] == u.data[SignalSource])
  {
    ColumnNames();
  }

  /** A table whose features can be computed has numeric feature columns. */
  lemma FeatureColumnNumeric(t: Table, col: string, sqrt: Series.SqrtFn)
    requires col == AvgBatSpeed || col == BatterRunValue
    requires col in t.data && Engineer(t, sqrt).Ok?
    ensures NumericView(t.data[col]).Some?
  {
    EngineerFailsIff(t, sqrt);
  }

  /**
   * The engineered table has the same rows, gains exactly the columns
   * `Written` names, and leaves every other column as it was.
   */
  lemma EngineerShape(t: Table, sqrt: Series.SqrtFn)
    requires Engineer(t, sqrt).Ok?
    ensures var e := Engineer(t, sqrt).value;
      && e.height == t.height
      && e.data.Keys == t.data.Keys + Written(t.data.Keys)
      && forall c :: c in t.data && c !in Written(t.data.Keys) ==> e.data[c] == t.data[c]
  {
    EngineerKeys(t, sqrt);
    EngineerKeeps(t, sqrt);
  }

  /** The keys half of `EngineerShape`. */
  lemma EngineerKeys(t: Table, sqrt: Series.SqrtFn)
    requires Engineer(t, sqrt).Ok?
    ensures Engineer(t, sqrt).value.data.Keys == t.data.Keys + Written(t.data.Keys)
  {
    FeatureStepCommutes(t, sqrt);
    var x := SecondStep(FirstStep(t, sqrt).value, sqrt).value;
    StepsShape(t, sqrt);
    ColumnNames();
    assert Engineer(t, sqrt) == WithSignal(x);
  }

  /** The unchanged-columns half of `EngineerShape`. */
  lemma EngineerKeeps(t: Table, sqrt: Series.SqrtFn)
    requires Engineer(t, sqrt).Ok?
    ensures forall c :: c in t.data && c !in Written(t.data.Keys) ==> Engineer(t, sqrt).value.data[c] == t.data[c]
  {
    FeatureStepCommutes(t, sqrt);
    var x := SecondStep(FirstStep(t, sqrt).value, sqrt).value;
    var e := Engineer(t, sqrt).value;
    assert e == WithSignal(x).value;
    StepsShape(t, sqrt);
    var w := Written(t.data.Keys);
    assert SignalSource in x.data ==> CashoutColumn in w && PickColumn in w;
    forall c | c in t.data && c !in w
      ensures e.data[c] == t.data[c]
    {
      assert c in x.data && x.data[c] == t.data[c];
      if SignalSource in x.data {
        assert c != CashoutColumn && c != PickColumn;
      }
    }
  }

  /** An engineered table of a table with `avg_bat_speed` or its own oscillator column has `cashout_signal`. */
  lemma EngineerWritesCashout(t: Table, sqrt: Series.SqrtFn)
    requires Engineer(t, sqrt).Ok? && (AvgBatSpeed in t.data || SignalSource in t.data)
    ensures CashoutColumn in Engineer(t, sqrt).value.data
  {
    FeatureStepCommutes(t, sqrt);
    StepsShape(t, sqrt);
  }

  /** An engineered table with an oscillator column for bat speed always has the cashout column too. */
  lemma SignalNeedsCashout(t: Table, sqrt: Series.SqrtFn)
    requires Engineer(t, sqrt).Ok?
    ensures SignalSource in Engineer(t, sqrt).value.data ==> CashoutColumn in Engineer(t, sqrt).value.data
  {
    FeatureStepCommutes(t, sqrt);
    var x := SecondStep(FirstStep(t, sqrt).value, sqrt).value;
    ColumnNames();
  }

  /** The two feature steps add the delta and oscillator columns of the present feature columns. */
  lemma StepsShape(t: Table, sqrt: Series.SqrtFn)
    requires FirstStep(t, sqrt).Ok? && SecondStep(FirstStep(t, sqrt).value, sqrt).Ok?
    ensures var x := SecondStep(FirstStep(t, sqrt).value, sqrt).value;
      && x.height == t.height
      && x.data.Keys == t.data.Keys
           + (if AvgBatSpeed in t.data then {DeltaName(AvgBatSpeed), OscillatorName(AvgBatSpeed)} else {})
           + (if BatterRunValue in t.data then {DeltaName(BatterRunValue), OscillatorName(BatterRunValue)} else {})
      && (SignalSource in x.data <==> AvgBatSpeed in t.data || SignalSource in t.data)
      && forall c :: c in t.data && c !in Written(t.data.Keys) ==> x.data[c] == t.data[c]
  {
    ColumnNames();
    var u := FirstStep(t, sqrt).value;
    assert BatterRunValue in u.data <==> BatterRunValue in t.data;
  }

  /** A present feature column gets its delta and oscillator columns, computed from its values. */
  lemma EngineerFeatureValues(t: Table, col: string, sqrt: Series.SqrtFn)
    requires col == AvgBatSpeed || col == BatterRunValue
    requires col in t.data && Engineer(t, sqrt).Ok?
    ensures NumericView(t.data[col]).Some?
    ensures var e := Engineer(t, sqrt).value;
      && DeltaName(col) in e.data && OscillatorName(col) in e.data
      && e.data[DeltaName(col)] == FromNumeric(Series.Delta(Values(t, col)))
      && e.data[OscillatorName(col)] == FromNumeric(Series.Oscillator(Values(t, col), sqrt))
  {
    FeatureColumnNumeric(t, col, sqrt);
    FeatureStepCommutes(t, sqrt);
    ColumnNames();
    var x := SecondStep(FirstStep(t, sqrt).value, sqrt).value;
    assert Engineer(t, sqrt) == WithSignal(x);
    if col == AvgBatSpeed {
      BatSpeedStepValues(t, sqrt);
    } else {
      RunValueStepValues(t, sqrt);
    }
  }

  /** The bat-speed columns after both feature steps. */
  lemma BatSpeedStepValues(t: Table, sqrt: Series.SqrtFn)
    requires AvgBatSpeed in t.data && NumericView(t.data[AvgBatSpeed]).Some?
    requires SecondStep(FirstStep(t, sqrt).value, sqrt).Ok?
    ensures var x := SecondStep(FirstStep(t, sqrt).value, sqrt).value;
      && x.data[DeltaName(AvgBatSpeed)] == FromNumeric(Series.Delta(Values(t, AvgBatSpeed)))
      && x.data[OscillatorName(AvgBatSpeed)] == FromNumeric(Series.Oscillator(Values(t, AvgBatSpeed), sqrt))
  {
    ColumnNames();
  }

  /** The run-value columns after both feature steps. */
  lemma RunValueStepValues(t: Table, sqrt: Series.SqrtFn)
    requires BatterRunValue in t.data && NumericView(t.data[BatterRunValue]).Some?
    requires FirstStep(t, sqrt).Ok? && SecondStep(FirstStep(t, sqrt).value, sqrt).Ok?
    ensures var x := SecondStep(FirstStep(t, sqrt).value, sqrt).value;
      && x.data[DeltaName(BatterRunValue)] == FromNumeric(Series.Delta(Values(t, BatterRunValue)))
      && x.data[OscillatorName(BatterRunValue)] == FromNumeric(Series.Oscillator(Values(t, BatterRunValue), sqrt))
  {
    ColumnNames();
    var u := FirstStep(t, sqrt).value;
    assert BatterRunValue in u.data && u.data[BatterRunValue] == t.data[BatterRunValue];
  }

  /**
   * Whenever the engineered table has `oscillator_avg_bat_speed` (computed from
   * `avg_bat_speed`, or brought by the table itself), that column is numeric,
   * row `i` of `cashout_signal` is true exactly when its entry is present and
   * below -2, and `pick_tracked` is True on every row, also where the
   * oscillator is missing. Without a bat-speed column the oscillator column is
   * the table's own.
   */
  lemma EngineerSignalRule(t: Table, sqrt: Series.SqrtFn)
    requires Engineer(t, sqrt).Ok? && SignalSource in Engineer(t, sqrt).value.data
    ensures NumericView(Engineer(t, sqrt).value.data[SignalSource]).Some?
    ensures var e := Engineer(t, sqrt).value;
      var o := NumericView(e.data[SignalSource]).value;
      && CashoutColumn in e.data && PickColumn in e.data && |o| == e.height
      && (forall i :: 0 <= i < e.height ==>
            e.data[CashoutColumn][i] == Flag(o[i].Some? && o[i].value < Series.SignalThreshold))
      && (forall i :: 0 <= i < e.height ==> e.data[PickColumn][i] == Flag(true))
    ensures AvgBatSpeed !in t.data ==> SignalSource in t.data && Engineer(t, sqrt).value.data[SignalSource] == t.data[SignalSource]
  {
    FeatureStepCommutes(t, sqrt);
    var u := FirstStep(t, sqrt).value;
    var x := SecondStep(u, sqrt).value;
    FirstStepKeeps(t, sqrt);
    SecondStepKeeps(u, sqrt);
    var e := Engineer(t, sqrt).value;
    assert e == WithSignal(x).value;
    assert SignalSource in x.data && e.data[SignalSource] == x.data[SignalSource] by {
      ColumnNames();
    }
    var o := NumericView(x.data[SignalSource]).value;
    assert e.data[CashoutColumn] == FromFlags(Series.Signal(o));
  }

  /**
   * When the table has a bat-speed column, the signal is read from its
   * oscillator: row `i` of `cashout_signal` is true exactly when the bat-speed
   * oscillator at `i` is present and below -2.
   */
  lemma BatSpeedSignalRule(t: Table, sqrt: Series.SqrtFn)
    requires AvgBatSpeed in t.data && Engineer(t, sqrt).Ok?
    ensures NumericView(t.data[AvgBatSpeed]).Some?
    ensures var e := Engineer(t, sqrt).value;
      var o := Series.Oscillator(Values(t, AvgBatSpeed), sqrt);
      && CashoutColumn in e.data && PickColumn in e.data && |o| == e.height
      && (forall i :: 0 <= i < e.height ==>
            e.data[CashoutColumn][i] == Flag(o[i].Some? && o[i].value < Series.SignalThreshold))
      && (forall i :: 0 <= i < e.height ==> e.data[PickColumn][i] == Flag(true))
  {
    ColumnNames();
    EngineerFeatureValues(t, AvgBatSpeed, sqrt);
    var o := Series.Oscillator(Values(t, AvgBatSpeed), sqrt);
    NumericRoundTrip(o);
    EngineerSignalRule(t, sqrt);
  }

  // ---------------------------------------------------------------------------
  // The DataFrame, updated in place

  class Frame {
    var data: map<string, seq<Cell>>
    var height: nat

    ghost predicate Valid()
      reads this
    {
      Rectangular(RawTable(data, height))
    }

    /** The table the frame currently holds. */
    function Snapshot(): Table
      reads this
      requires Valid()
    {
      RawTable(data, height)
    }

    /** The frame `pd.read_csv` returns for a parsed table. */
    constructor (t: Table)
      ensures Valid() && Snapshot() == t
    {
      data := t.data;
      height := t.height;
    }

    /** `df[name] = values`: adds or replaces one column. */
    method Assign(name: string, values: seq<Cell>)
      requires Valid() && |values| == height
      modifies this
      ensures Valid()
      ensures data == old(data)[name := values] && height == old(height)
    {
      data := data[name := values];
    }

    /** `add_delta_and_oscillator(df, col)`. */
    method AddDeltaAndOscillator(col: string, sqrt: Series.SqrtFn) returns (raised: Option<Error>)
      requires Valid() && col in data
      modifies this
      ensures Valid() && height == old(height)
      ensures WithFeatures(old(Snapshot()), col, sqrt) ==
        if raised.None? then Ok(Snapshot()) else Err(raised.value)
    {
      var v := NumericView(data[col]);
      if v.None? {
        return Some(NonNumericColumn(col));
      }
      Assign(DeltaName(col), FromNumeric(Series.Delta(v.value)));
      var w := NumericView(data[col]);
      Assign(OscillatorName(col), FromNumeric(Series.Oscillator(w.value, sqrt)));
      return None;
    }

    /** `engineer_features(df)`. */
    method EngineerFeatures(sqrt: Series.SqrtFn) returns (raised: Option<Error>)
      requires Valid()
      modifies this
      ensures Valid() && height == old(height)
      ensures Engineer(old(Snapshot()), sqrt) ==
        if raised.None? then Ok(Snapshot()) else Err(raised.value)
    {
      ghost var start := Snapshot();
      var k := 0;
      while k < |FeatureColumns|
        invariant 0 <= k <= |FeatureColumns|
        invariant Valid() && height == old(height)
        invariant WithFeatureColumns(start, FeatureColumns, sqrt) ==
          WithFeatureColumns(Snapshot(), FeatureColumns[k..], sqrt)
      {
        var col := FeatureColumns[k];
        assert FeatureColumns[k..][1..] == FeatureColumns[k + 1..];
        if col in data {
          raised := AddDeltaAndOscillator(col, sqrt);
          if raised.Some? {
            return;
          }
        }
        k := k + 1;
      }
      if SignalSource in data {
        var o := NumericView(data[SignalSource]);
        if o.None? {
          return Some(NonNumericColumn(SignalSource));
        }
        Assign(CashoutColumn, FromFlags(Series.Signal(o.value)));
        Assign(PickColumn, FromFlags(seq(height, _ => true)));
      }
      return None;
    }
  }
}
