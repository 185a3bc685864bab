/**
 * Building an `Omniscience` record from one engineered row (app.py,
 * `_process_csv`, lines 164-171) and the summary the upload reports for it.
 *
 * The keyword arguments are the row's values for every model column it has
 * (`**{col: row.get(col) ...}`) plus five explicit ones. Python refuses a call
 * that passes the same keyword twice, so a row that has one of the explicit
 * names as a column makes the construction raise `TypeError`.
 */
module Records {
  import opened Wrappers
  import opened Tables
  import Series
  import Features

  /** `datetime.utcnow()` is a clock read: the model takes the time as an opaque value. */
  type Time = nat

  /** `Omniscience.__table__.columns.keys()`. */
  const ModelColumns: set<string> := {
    "id", "name", "swings_competitive", "percent_swings_competitive", "contact",
    "avg_bat_speed", "hard_swing_rate", "squared_up_per_bat_contact", "squared_up_per_swing",
    "blast_per_bat_contact", "blast_per_swing", "swing_length", "swords", "batter_run_value",
    "whiffs", "whiff_per_swing", "batted_ball_events", "batted_ball_event_per_swing",
    "timestamp", "cashout_signal", "pick_tracked", "delta_bat_speed", "oscillator_bat_speed",
    "prophecy_rating", "future_value"
  }

  const DeltaBatSpeed: string := "delta_bat_speed"
  const OscillatorBatSpeed: string := "oscillator_bat_speed"
  const Timestamp: string := "timestamp"

  /** The keywords passed explicitly, in the order of the call. */
  const ExplicitKeywords: seq<string> :=
    [DeltaBatSpeed, OscillatorBatSpeed, Features.CashoutColumn, Features.PickColumn, Timestamp]

  /** An `Omniscience` object before it is stored: its column attributes and its timestamp. */
  datatype Record = Record(attrs: map<string, Cell>, timestamp: Time)

  /** `{'name': ..., 'cashout_signal': ..., 'oscillator_bat_speed': ...}` for one record. */
  datatype Summary = Summary(name: Cell, cashoutSignal: Cell, oscillatorBatSpeed: Cell)

  /** `row.get(key)`: the value, or `None` when the row has no such column. */
  function Get(row: map<string, Cell>, key: string): Cell
  {
    if key in row then row[key] else Missing
  }

  /** `row.get(key, default)`. */
  function GetOr(row: map<string, Cell>, key: string, default: Cell): Cell
  {
    if key in row then row[key] else default
  }

  /** `{col: row.get(col) for col in Omniscience.__table__.columns.keys() if col in row}`. */
  function Copied(row: map<string, Cell>): (m: map<string, Cell>)
    ensures m.Keys == row.Keys * ModelColumns
    ensures forall c :: c in m ==> m[c] == row[c]
  {
    map c | c in row && c in ModelColumns :: row[c]
  }

  /**
   * The explicit keyword arguments other than `timestamp`: the row's bat-speed
   * delta and oscillator (`None` when the row lacks them) and the two flags,
   * which default to False.
   */
  function Explicit(row: map<string, Cell>): (m: map<string, Cell>)
    ensures m.Keys == {DeltaBatSpeed, OscillatorBatSpeed, Features.CashoutColumn, Features.PickColumn}
    ensures m[DeltaBatSpeed] == (if Features.DeltaName(Features.AvgBatSpeed) in row then row[Features.DeltaName(Features.AvgBatSpeed)] else Missing)
    ensures m[OscillatorBatSpeed] == (if Features.SignalSource in row then row[Features.SignalSource] else Missing)
    ensures forall flag :: flag in {Features.CashoutColumn, Features.PickColumn} ==>
      m[flag] == if flag in row then row[flag] else Flag(false)
  {
    map[DeltaBatSpeed := Get(row, Features.DeltaName(Features.AvgBatSpeed)),
        OscillatorBatSpeed := Get(row, Features.SignalSource),
        Features.CashoutColumn := GetOr(row, Features.CashoutColumn, Flag(false)),
        Features.PickColumn := GetOr(row, Features.PickColumn, Flag(false))]
  }

  /** The first of `keywords` that the row also supplies: the one Python reports twice. */
  function FirstCollision(row: map<string, Cell>, keywords: seq<string>): (r: Option<string>)
    ensures r.None? <==> forall j :: 0 <= j < |keywords| ==> keywords[j] !in row
    ensures r.Some? ==> exists j :: 0 <= j < |keywords| && keywords[j] == r.value && keywords[j] in row
                          && forall k :: 0 <= k < j ==> keywords[k] !in row
    decreases |keywords|
  {
    if keywords == [] then None
    else if keywords[0] in row then Some(keywords[0])
    else
      var r := FirstCollision(row, keywords[1..]);
      assert r.Some? ==> exists j :: 0 < j < |keywords| && keywords[j] == r.value && keywords[j] in row
                          && forall k :: 0 <= k < j ==> keywords[k] !in row by {
        if r.Some? {
          var j :| 0 <= j < |keywords| - 1 && keywords[1..][j] == r.value && keywords[1..][j] in row
                   && forall k :: 0 <= k < j ==> keywords[1..][k] !in row;
          assert forall k :: 0 < k < j + 1 ==> keywords[k] == keywords[1..][k - 1];
        }
      }
      r
  }

  /**
   * The constructor call as written. It raises for a row that has a column
   * with one of the explicit keyword names; otherwise the record holds every
   * model column of the row, the bat-speed delta and oscillator read from the
   * row, both flags left False (the row has neither column) and the clock time.
   */
  function BuildRecord(row: map<string, Cell>, now: Time): (r: Result<Record, Error>)
    ensures r.Err? <==> exists j :: 0 <= j < |ExplicitKeywords| && ExplicitKeywords[j] in row
    ensures r.Err? ==> r.error.DuplicateKeyword? && r.error.keyword in row && r.error.keyword in ExplicitKeywords
    ensures r.Ok? ==> r.value.timestamp == now
    ensures r.Ok? ==> r.value.attrs.Keys == (row.Keys * ModelColumns) + {DeltaBatSpeed, OscillatorBatSpeed, Features.CashoutColumn, Features.PickColumn}
    ensures r.Ok? ==> forall c :: c in row && c in ModelColumns ==> r.value.attrs[c] == row[c]
    ensures r.Ok? ==> && r.value.attrs[Features.CashoutColumn] == Flag(false)
                      && r.value.attrs[Features.PickColumn] == Flag(false)
                      && r.value.attrs[DeltaBatSpeed] == Get(row, Features.DeltaName(Features.AvgBatSpeed))
                      && r.value.attrs[OscillatorBatSpeed] == Get(row, Features.SignalSource)
  {
    match FirstCollision(row, ExplicitKeywords)
    case Some(k) => Err(DuplicateKeyword(k))
    case None =>
      assert ExplicitKeywords[0] !in row && ExplicitKeywords[1] !in row;
      assert ExplicitKeywords[2] !in row && ExplicitKeywords[3] !in row;
      Ok(Record(Copied(row) + Explicit(row), now))
  }

  /**
   * The summary reported for a stored record: its `name`, `cashout_signal`
   * and `oscillator_bat_speed` attributes, `None` for an attribute it lacks.
   */
  function Summarize(r: Record): (s: Summary)
    ensures "name" in r.attrs ==> s.name == r.attrs["name"]
    ensures "name" !in r.attrs ==> s.name == Missing
    ensures Features.CashoutColumn in r.attrs ==> s.cashoutSignal == r.attrs[Features.CashoutColumn]
    ensures Features.CashoutColumn !in r.attrs ==> s.cashoutSignal == Missing
    ensures OscillatorBatSpeed in r.attrs ==> s.oscillatorBatSpeed == r.attrs[OscillatorBatSpeed]
    ensures OscillatorBatSpeed !in r.attrs ==> s.oscillatorBatSpeed == Missing
  {
    Summary(Get(r.attrs, "name"), Get(r.attrs, Features.CashoutColumn), Get(r.attrs, OscillatorBatSpeed))
  }

  // ---------------------------------------------------------------------------
  // The keyword collision

  /**
   * As written, no row of an engineered table that has a bat-speed column (or
   * brings its own `oscillator_avg_bat_speed`) can become a record:
   * `engineer_features` has added `cashout_signal`, which is also passed
   * explicitly, so the construction raises on every row.
   */
  lemma EngineeredRowsCollide(t: Table, sqrt: Series.SqrtFn, now: Time, i: nat)
    requires Features.AvgBatSpeed in t.data || Features.SignalSource in t.data
    requires Features.Engineer(t, sqrt).Ok? && i < t.height
    ensures i < Features.Engineer(t, sqrt).value.height
    ensures BuildRecord(Row(Features.Engineer(t, sqrt).value, i), now).Err?
  {
    Features.EngineerWritesCashout(t, sqrt);
    var e := Features.Engineer(t, sqrt).value;
    assert Features.CashoutColumn in Row(e, i);
    assert ExplicitKeywords[2] == Features.CashoutColumn;
  }

  /**
   * The construction as evidently intended: the explicit keywords take
   * precedence over same-named row columns (`{**copied, **explicit}`), so it
   * never raises, and the clock's time replaces a row's own `timestamp`.
   */
  function BuildRecordMerged(row: map<string, Cell>, now: Time): (r: Record)
    ensures r.timestamp == now && Timestamp !in r.attrs
    ensures r.attrs.Keys == (row.Keys * ModelColumns - {Timestamp}) + {DeltaBatSpeed, OscillatorBatSpeed, Features.CashoutColumn, Features.PickColumn}
    ensures forall c :: c in row && c in ModelColumns && c !in Explicit(row) && c != Timestamp ==> r.attrs[c] == row[c]
    ensures forall c :: c in Explicit(row) ==> r.attrs[c] == Explicit(row)[c]
  {
    Record((Copied(row) - {Timestamp}) + Explicit(row), now)
  }

  /** How a row becomes a record; the upload path is parametric in it. */
  type Builder = (map<string, Cell>, Time) -> Result<Record, Error>

  /** The intended construction as a builder: it never raises. */
  function MergedBuild(row: map<string, Cell>, now: Time): Result<Record, Error>
  {
    Ok(BuildRecordMerged(row, now))
  }

  /** Where the as-written construction succeeds, the intended one builds the same record. */
  lemma MergedAgreesWhereNoCollision(row: map<string, Cell>, now: Time)
    requires BuildRecord(row, now).Ok?
    ensures BuildRecord(row, now).value == BuildRecordMerged(row, now)
  {
    assert FirstCollision(row, ExplicitKeywords).None?;
    assert ExplicitKeywords[4] == Timestamp && Timestamp !in row;
    assert Copied(row) - {Timestamp} == Copied(row);
  }

  /**
   * With the intended construction, the record of row `i` of an engineered
   * table with a bat-speed column carries the row's delta and oscillator, the
   * signal rule's verdict and `pick_tracked` True.
   */
  lemma MergedRecordCarriesSignal(t: Table, sqrt: Series.SqrtFn, now: Time, i: nat)
    requires Features.AvgBatSpeed in t.data && Features.Engineer(t, sqrt).Ok? && i < t.height
    ensures NumericView(t.data[Features.AvgBatSpeed]).Some?
    ensures var e := Features.Engineer(t, sqrt).value;
      var v := Features.Values(t, Features.AvgBatSpeed);
      var o := Series.Oscillator(v, sqrt);
      && i < e.height && i < |o|
      && var r := BuildRecordMerged(Row(e, i), now);
      && r.attrs[Features.CashoutColumn] == Flag(o[i].Some? && o[i].value < Series.SignalThreshold)
      && r.attrs[Features.PickColumn] == Flag(true)
      && r.attrs[OscillatorBatSpeed] == FromNumber(o[i])
      && r.attrs[DeltaBatSpeed] == FromNumber(Series.Delta(v)[i])
  {
    EngineeredRow(t, sqrt, i);
    var row := Row(Features.Engineer(t, sqrt).value, i);
    var x := Explicit(row);
    assert x[Features.CashoutColumn] == row[Features.CashoutColumn];
    assert x[Features.PickColumn] == row[Features.PickColumn];
    assert x[OscillatorBatSpeed] == row[Features.SignalSource];
    assert x[DeltaBatSpeed] == row[Features.DeltaName(Features.AvgBatSpeed)];
  }

  /** Row `i` of an engineered table with a bat-speed column. */
  lemma EngineeredRow(t: Table, sqrt: Series.SqrtFn, i: nat)
    requires Features.AvgBatSpeed in t.data && Features.Engineer(t, sqrt).Ok? && i < t.height
    ensures NumericView(t.data[Features.AvgBatSpeed]).Some?
    ensures var e := Features.Engineer(t, sqrt).value;
      var v := Features.Values(t, Features.AvgBatSpeed);
      var o := Series.Oscillator(v, sqrt);
      && i < e.height && i < |o|
      && var row := Row(e, i);
      && Features.CashoutColumn in row && Features.PickColumn in row
      && Features.SignalSource in row && Features.DeltaName(Features.AvgBatSpeed) in row
      && row[Features.CashoutColumn] == Flag(o[i].Some? && o[i].value < Series.SignalThreshold)
      && row[Features.PickColumn] == Flag(true)
      && row[Features.SignalSource] == FromNumber(o[i])
      && row[Features.DeltaName(Features.AvgBatSpeed)] == FromNumber(Series.Delta(v)[i])
  {
    Features.EngineerShape(t, sqrt);
    Features.BatSpeedSignalRule(t, sqrt);
    Features.EngineerFeatureValues(t, Features.AvgBatSpeed, sqrt);
    Features.ColumnNames();
  }
}
