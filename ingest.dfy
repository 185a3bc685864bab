/**
 * The upload path (app.py, `_process_csv` and `upload_stats`): files are
 * routed by suffix, archives are walked entry by entry, each parsed CSV is
 * engineered and turned into one record and one summary per row, failures of
 * one file become alerts, and the batch is committed once at the end or
 * rolled back entirely when an exception escapes.
 *
 * CSV parsing and archive opening are foreign libraries: their outcomes are
 * inputs. The walk is specified by the forward-recursive functions
 * `CsvStep` ... `FilesStep` and carried out by the methods at the end, whose
 * loops are proved against them.
 */
module Ingest {
  import opened Wrappers
  import opened Tables
  import Series
  import Features
  import opened Records

  /** What `pd.read_csv` makes of a file: a table, or the message of the exception it raised. */
  datatype CsvOutcome = Parsed(table: Table) | ParseError(message: string)

  /** What `zipf.open(zipinfo)` followed by parsing gives for one archive entry. */
  datatype EntryOutcome =
    | Readable(csv: CsvOutcome)
    | EntryBadZip                 // `zipfile.BadZipFile` raised while opening the entry
    | EntryFault(message: string) // any other exception raised while opening the entry

  datatype Entry = Entry(name: string, open: EntryOutcome)

  /** What `zipfile.ZipFile(file)` gives: the entries in `infolist()` order, or an exception. */
  datatype ArchiveOutcome = Opened(entries: seq<Entry>) | BadZip | ArchiveError(message: string)

  /**
   * One uploaded file: its (sanitised) name, and what its bytes are when read
   * as a CSV and when opened as an archive. Which one is used depends on the name.
   */
  datatype Upload = Upload(name: string, asCsv: CsvOutcome, asZip: ArchiveOutcome)

  /** The endpoint's answer: 400 without files, the report, or a 500 after rollback. */
  datatype Response =
    | NoFiles
    | Complete(alerts: seq<string>, results: seq<Summary>)
    | ServerError(error: Error)

  /** The request's accumulated alerts and results, and the session's pending records. */
  datatype Batch = Batch(alerts: seq<string>, results: seq<Summary>, records: seq<Record>)

  /** The walk either goes on with a batch or has been aborted by an escaping exception. */
  datatype Step = Running(batch: Batch) | Aborted(error: Error)

  const CsvSuffix: string := ".csv"
  const ZipSuffix: string := ".zip"

  /** `s.endswith(suffix)`. */
  predicate EndsWith(s: string, suffix: string)
  {
    |suffix| <= |s| && s[|s| - |suffix|..] == suffix
  }

  function CsvAlert(message: string): string
  {
    "Error processing CSV: " + message
  }

  function ZipAlert(filename: string): string
  {
    "Corrupted ZIP file: " + filename + " could not be opened."
  }

  function WithAlert(b: Batch, alert: string): Batch
  {
    Batch(b.alerts + [alert], b.results, b.records)
  }

  /**
   * `b'` continues `b`: alerts, results and pending records only grow, and
   * results and records grow by the same number.
   */
  predicate Extends(b: Batch, b': Batch)
  {
    && b.alerts <= b'.alerts && b.results <= b'.results && b.records <= b'.records
    && |b'.results| - |b.results| == |b'.records| - |b.records|
  }

  // ---------------------------------------------------------------------------
  // Specification of the walk

  /**
   * The `iterrows()` loop of `_process_csv` from row `i` on: when it goes
   * through it adds no alert and one record and one result per row.
   */
  function RowsStep(b: Batch, t: Table, i: nat, now: Time, build: Builder): (r: Step)
    requires i <= t.height
    ensures r.Running? ==> && Extends(b, r.batch) && r.batch.alerts == b.alerts
                           && |r.batch.records| == |b.records| + (t.height - i)
    decreases t.height - i
  {
    if i == t.height then Running(b)
    else
      match build(Row(t, i), now)
      case Err(e) => Aborted(e)
      case Ok(r) => RowsStep(Batch(b.alerts, b.results + [Summarize(r)], b.records + [r]), t, i + 1, now, build)
  }

  /**
   * `_process_csv`: one alert for a parse failure; otherwise engineer the
   * table and walk its rows. A parse failure never aborts the walk, and a
   * file adds at most one alert.
   */
  function CsvStep(b: Batch, csv: CsvOutcome, now: Time, sqrt: Series.SqrtFn, build: Builder): (r: Step)
    ensures csv.ParseError? ==> r.Running?
    ensures r.Running? ==> Extends(b, r.batch) && |r.batch.alerts| <= |b.alerts| + 1
  {
    match csv
    case ParseError(message) => Running(WithAlert(b, CsvAlert(message)))
    case Parsed(t) =>
      match Features.Engineer(t, sqrt)
      case Err(e) => Aborted(e)
      case Ok(e) => RowsStep(b, e, 0, now, build)
  }

  /** The loop over `infolist()`: only `.csv` entries; a `BadZipFile` ends the archive with one alert. */
  function EntriesStep(b: Batch, filename: string, entries: seq<Entry>, now: Time, sqrt: Series.SqrtFn, build: Builder): (r: Step)
    ensures r.Running? ==> Extends(b, r.batch)
    decreases |entries|
  {
    if entries == [] then Running(b)
    else if !EndsWith(entries[0].name, CsvSuffix) then EntriesStep(b, filename, entries[1..], now, sqrt, build)
    else
      match entries[0].open
      case EntryBadZip => Running(WithAlert(b, ZipAlert(filename)))
      case EntryFault(message) => Aborted(ArchiveFault(message))
      case Readable(csv) =>
        match CsvStep(b, csv, now, sqrt, build)
        case Aborted(e) => Aborted(e)
        case Running(b') => EntriesStep(b', filename, entries[1..], now, sqrt, build)
  }

  /**
   * The `try: with zipfile.ZipFile(...)` block for one `.zip` upload: a file
   * that is no archive only adds its alert, and the walk goes on.
   */
  function ArchiveStep(b: Batch, filename: string, archive: ArchiveOutcome, now: Time, sqrt: Series.SqrtFn, build: Builder): (r: Step)
    ensures archive.BadZip? ==> r.Running? && r.batch.alerts == b.alerts + [ZipAlert(filename)]
    ensures r.Running? ==> Extends(b, r.batch)
  {
    match archive
    case BadZip => Running(WithAlert(b, ZipAlert(filename)))
    case ArchiveError(message) => Aborted(ArchiveFault(message))
    case Opened(entries) => EntriesStep(b, filename, entries, now, sqrt, build)
  }

  /** One iteration of the loop over uploads: route by suffix, skip anything else. */
  function FileStep(b: Batch, f: Upload, now: Time, sqrt: Series.SqrtFn, build: Builder): (r: Step)
    ensures !EndsWith(f.name, ZipSuffix) && !EndsWith(f.name, CsvSuffix) ==> r == Running(b)
    ensures r.Running? ==> Extends(b, r.batch)
  {
    if EndsWith(f.name, ZipSuffix) then ArchiveStep(b, f.name, f.asZip, now, sqrt, build)
    else if EndsWith(f.name, CsvSuffix) then CsvStep(b, f.asCsv, now, sqrt, build)
    else Running(b)
  }

  /** The loop over uploads, in the order they were sent. */
  function FilesStep(b: Batch, files: seq<Upload>, now: Time, sqrt: Series.SqrtFn, build: Builder): (r: Step)
    ensures r.Running? ==> Extends(b, r.batch)
    decreases |files|
  {
    if files == [] then Running(b)
    else
      match FileStep(b, files[0], now, sqrt, build)
      case Aborted(e) => Aborted(e)
      case Running(b') => FilesStep(b', files[1..], now, sqrt, build)
  }

  // ---------------------------------------------------------------------------
  // The session and the request state

  /** The database session, reduced to its list of pending records and what has been committed. */
  class Session {
    var pending: seq<Record>
    var stored: seq<Record>

    constructor ()
      ensures pending == [] && stored == []
    {
      pending := [];
      stored := [];
    }

    /** `session.add(record)`. */
    method Add(r: Record)
      modifies this
      ensures pending == old(pending) + [r] && stored == old(stored)
    {
      pending := pending + [r];
    }

    /** `session.commit()`; `accepted` is the store's verdict, which the model does not compute. */
    method Commit(accepted: bool) returns (ok: bool)
      modifies this
      ensures ok == accepted
      ensures ok ==> stored == old(stored) + old(pending) && pending == []
      ensures !ok ==> stored == old(stored) && pending == old(pending)
    {
      ok := accepted;
      if ok {
        stored := stored + pending;
        pending := [];
      }
    }

    /** `session.rollback()`: every pending record is discarded. */
    method Rollback()
      modifies this
      ensures stored == old(stored) && pending == []
    {
      pending := [];
    }
  }

  /** The request's `all_alerts` and `results` lists. */
  class Report {
    var alerts: seq<string>
    var results: seq<Summary>

    constructor ()
      ensures alerts == [] && results == []
    {
      alerts := [];
      results := [];
    }
  }

  function Current(report: Report, session: Session): Batch
    reads report, session
  {
    Batch(report.alerts, report.results, session.pending)
  }

  // ---------------------------------------------------------------------------
  // The walk, as the source carries it out

  /** `_process_csv(file, results, all_alerts)`; `raised` is the exception that escapes it. */
  method ProcessCsv(csv: CsvOutcome, report: Report, session: Session, now: Time, sqrt: Series.SqrtFn, build: Builder)
    returns (raised: Option<Error>)
    modifies report, session
    ensures session.stored == old(session.stored)
    ensures CsvStep(old(Current(report, session)), csv, now, sqrt, build) ==
      if raised.None? then Running(Current(report, session)) else Aborted(raised.value)
  {
    match csv {
      case ParseError(message) =>
        report.alerts := report.alerts + [CsvAlert(message)];
        return None;
      case Parsed(table) =>
        var frame := new Features.Frame(table);
        raised := frame.EngineerFeatures(sqrt);
        if raised.Some? {
          return;
        }
        var t := frame.Snapshot();
        raised := StoreRows(t, report, session, now, build);
    }
  }

  /** The `for _, row in df.iterrows()` loop of `_process_csv`. */
  method StoreRows(t: Table, report: Report, session: Session, now: Time, build: Builder)
    returns (raised: Option<Error>)
    modifies report, session
    ensures session.stored == old(session.stored)
    ensures RowsStep(old(Current(report, session)), t, 0, now, build) ==
      if raised.None? then Running(Current(report, session)) else Aborted(raised.value)
  {
    ghost var start := Current(report, session);
    var i := 0;
    while i < t.height
      invariant 0 <= i <= t.height
      invariant session.stored == old(session.stored)
      invariant RowsStep(start, t, 0, now, build) == RowsStep(Current(report, session), t, i, now, build)
    {
      var r := build(Row(t, i), now);
      if r.Err? {
        return Some(r.error);
      }
      session.Add(r.value);
      report.results := report.results + [Summarize(r.value)];
      i := i + 1;
    }
    return None;
  }

  /** The `try: with zipfile.ZipFile(...)` block of `upload_stats` for one `.zip` upload. */
  method ProcessZip(filename: string, archive: ArchiveOutcome, report: Report, session: Session,
                    now: Time, sqrt: Series.SqrtFn, build: Builder)
    returns (raised: Option<Error>)
    modifies report, session
    ensures session.stored == old(session.stored)
    ensures ArchiveStep(old(Current(report, session)), filename, archive, now, sqrt, build) ==
      if raised.None? then Running(Current(report, session)) else Aborted(raised.value)
  {
    match archive {
      case BadZip =>
        report.alerts := report.alerts + [ZipAlert(filename)];
        return None;
      case ArchiveError(message) =>
        return Some(ArchiveFault(message));
      case Opened(entries) =>
        ghost var start := Current(report, session);
        var j := 0;
        while j < |entries|
          invariant 0 <= j <= |entries|
          invariant session.stored == old(session.stored)
          invariant EntriesStep(start, filename, entries, now, sqrt, build) ==
            EntriesStep(Current(report, session), filename, entries[j..], now, sqrt, build)
        {
          var entry := entries[j];
          assert entries[j..][1..] == entries[j + 1..];
          if EndsWith(entry.name, CsvSuffix) {
            match entry.open {
              case EntryBadZip =>
                report.alerts := report.alerts + [ZipAlert(filename)];
                return None;
              case EntryFault(message) =>
                return Some(ArchiveFault(message));
              case Readable(csv) =>
                raised := ProcessCsv(csv, report, session, now, sqrt, build);
                if raised.Some? {
                  return;
                }
            }
          }
          j := j + 1;
        }
        return None;
    }
  }

  /**
   * `upload_stats()`: without files, a 400 and nothing touched. Otherwise the
   * walk over all uploads; an escaping exception or a refused commit rolls the
   * session back and answers only the error; else everything pending is
   * committed once and the alerts and results are returned.
   */
  method UploadStats(files: Option<seq<Upload>>, session: Session, now: Time, sqrt: Series.SqrtFn, accepted: bool, build: Builder)
    returns (resp: Response)
    modifies session
    ensures files.None? ==> resp == NoFiles && session.pending == old(session.pending) && session.stored == old(session.stored)
    ensures files.Some? ==>
      match FilesStep(Batch([], [], old(session.pending)), files.value, now, sqrt, build)
      case Aborted(e) =>
        resp == ServerError(e) && session.stored == old(session.stored) && session.pending == []
      case Running(b) =>
        if accepted then
          resp == Complete(b.alerts, b.results) && session.stored == old(session.stored) + b.records && session.pending == []
        else
          resp == ServerError(StoreRefused) && session.stored == old(session.stored) && session.pending == []
  {
    if files.None? {
      return NoFiles;
    }
    var uploads := files.value;
    var report := new Report();
    ghost var start := Current(report, session);
    var i := 0;
    while i < |uploads|
      invariant 0 <= i <= |uploads|
      invariant session.stored == old(session.stored)
      invariant FilesStep(start, uploads, now, sqrt, build) == FilesStep(Current(report, session), uploads[i..], now, sqrt, build)
    {
      var upload := uploads[i];
      assert uploads[i..][1..] == uploads[i + 1..];
      var raised: Option<Error> := None;
      if EndsWith(upload.name, ZipSuffix) {
        raised := ProcessZip(upload.name, upload.asZip, report, session, now, sqrt, build);
      } else if EndsWith(upload.name, CsvSuffix) {
        raised := ProcessCsv(upload.asCsv, report, session, now, sqrt, build);
      }
      if raised.Some? {
        session.Rollback();
        return ServerError(raised.value);
      }
      i := i + 1;
    }
    var committed := session.Commit(accepted);
    if !committed {
      session.Rollback();
      return ServerError(StoreRefused);
    }
    return Complete(report.alerts, report.results);
  }

  // ---------------------------------------------------------------------------
  // Properties of the walk

  /** A name cannot end with both suffixes, so routing is unambiguous. */
  lemma SuffixesExclusive(s: string)
    ensures EndsWith(s, CsvSuffix) ==> !EndsWith(s, ZipSuffix)
  {
  }

  /**
   * The rows of one table: the walk goes on exactly when every row becomes a
   * record.
   */
  lemma {:induction false} RowsRunningIff(b: Batch, t: Table, i: nat, now: Time, build: Builder)
    requires i <= t.height
    decreases t.height - i
    ensures RowsStep(b, t, i, now, build).Running? <==> forall j :: i <= j < t.height ==> build(Row(t, j), now).Ok?
  {
    if i < t.height && build(Row(t, i), now).Ok? {
      var r := build(Row(t, i), now).value;
      RowsRunningIff(Batch(b.alerts, b.results + [Summarize(r)], b.records + [r]), t, i + 1, now, build);
    }
  }

  /**
   * When the rows go through, no alert is added and the records and their
   * summaries are appended in row order, one of each per row.
   */
  lemma {:induction false} RowsContents(b: Batch, t: Table, i: nat, now: Time, build: Builder)
    requires i <= t.height && RowsStep(b, t, i, now, build).Running?
    decreases t.height - i
    ensures var b' := RowsStep(b, t, i, now, build).batch;
      && b'.alerts == b.alerts
      && |b'.records| == |b.records| + (t.height - i)
      && |b'.results| == |b.results| + (t.height - i)
      && b.records <= b'.records && b.results <= b'.results
      && forall j :: i <= j < t.height ==>
           && build(Row(t, j), now).Ok?
           && b'.records[|b.records| + (j - i)] == build(Row(t, j), now).value
           && b'.results[|b.results| + (j - i)] == Summarize(build(Row(t, j), now).value)
  {
    if i < t.height {
      var r := build(Row(t, i), now).value;
      var b1 := Batch(b.alerts, b.results + [Summarize(r)], b.records + [r]);
      assert RowsStep(b, t, i, now, build) == RowsStep(b1, t, i + 1, now, build);
      RowsContents(b1, t, i + 1, now, build);
      var b' := RowsStep(b1, t, i + 1, now, build).batch;
      forall j | i <= j < t.height
        ensures && build(Row(t, j), now).Ok?
                && b'.records[|b.records| + (j - i)] == build(Row(t, j), now).value
                && b'.results[|b.results| + (j - i)] == Summarize(build(Row(t, j), now).value)
      {
        if j == i {
          assert b'.records[..|b1.records|] == b1.records && b'.results[..|b1.results|] == b1.results;
          assert b'.records[|b.records|] == b1.records[|b.records|];
          assert b'.results[|b.results|] == b1.results[|b.results|];
        } else {
          var k := j - (i + 1);
          assert b'.records[|b1.records| + k] == build(Row(t, j), now).value;
          assert b'.results[|b1.results| + k] == Summarize(build(Row(t, j), now).value);
        }
      }
    }
  }

  /** When the rows do not go through, the walk is aborted with the error of the first row that fails. */
  lemma {:induction false} RowsFirstFailure(b: Batch, t: Table, i: nat, now: Time, build: Builder)
    requires i <= t.height && RowsStep(b, t, i, now, build).Aborted?
    decreases t.height - i
    ensures exists j: nat :: && i <= j < t.height
                        && (forall k: nat :: i <= k < j ==> build(Row(t, k), now).Ok?)
                        && build(Row(t, j), now).Err?
                        && RowsStep(b, t, i, now, build).error == build(Row(t, j), now).error
  {
    if build(Row(t, i), now).Ok? {
      var r := build(Row(t, i), now).value;
      var b1 := Batch(b.alerts, b.results + [Summarize(r)], b.records + [r]);
      RowsFirstFailure(b1, t, i + 1, now, build);
      var j: nat :| && i + 1 <= j < t.height
               && (forall k: nat :: i + 1 <= k < j ==> build(Row(t, k), now).Ok?)
               && build(Row(t, j), now).Err?
               && RowsStep(b1, t, i + 1, now, build).error == build(Row(t, j), now).error;
      assert forall k: nat :: i <= k < j ==> build(Row(t, k), now).Ok?;
    } else {
      assert build(Row(t, i), now).Err?;
    }
  }

  /** A summary that reports neither a cashout signal nor an oscillator value. */
  predicate Quiet(s: Summary)
  {
    s.cashoutSignal == Flag(false) && s.oscillatorBatSpeed == Missing
  }

  /**
   * A builder that refuses rows with a `cashout_signal` column, leaves the
   * record's `cashout_signal` False and reads its oscillator from the row's
   * `oscillator_avg_bat_speed`.
   */
  ghost predicate QuietBuilder(build: Builder)
  {
    forall row: map<string, Cell>, now: Time {:trigger build(row, now)} :: build(row, now).Ok? ==>
      && Features.CashoutColumn !in row
      && Summarize(build(row, now).value).cashoutSignal == Flag(false)
      && Summarize(build(row, now).value).oscillatorBatSpeed == Get(row, Features.SignalSource)
  }

  /** The construction as written is such a builder. */
  lemma AsWrittenIsQuiet()
    ensures QuietBuilder(BuildRecord)
  {
    forall row: map<string, Cell>, now: Time | BuildRecord(row, now).Ok?
      ensures && Features.CashoutColumn !in row
              && Summarize(BuildRecord(row, now).value).cashoutSignal == Flag(false)
              && Summarize(BuildRecord(row, now).value).oscillatorBatSpeed == Get(row, Features.SignalSource)
    {
      AsWrittenRowIsQuiet(row, now);
    }
  }

  /** One row of `AsWrittenIsQuiet`. */
  lemma AsWrittenRowIsQuiet(row: map<string, Cell>, now: Time)
    requires BuildRecord(row, now).Ok?
    ensures Features.CashoutColumn !in row
    ensures Summarize(BuildRecord(row, now).value).cashoutSignal == Flag(false)
    ensures Summarize(BuildRecord(row, now).value).oscillatorBatSpeed == Get(row, Features.SignalSource)
  {
    assert ExplicitKeywords[2] == Features.CashoutColumn;
    var r := BuildRecord(row, now).value;
    assert Features.CashoutColumn in r.attrs && OscillatorBatSpeed in r.attrs;
  }

  /**
   * With such a builder, a row of an engineered table that does become a record
   * reports no signal: the table had no bat-speed column, so
   * `engineer_features` wrote neither `oscillator_avg_bat_speed` nor
   * `cashout_signal`.
   */
  lemma EngineeredRecordIsQuiet(t: Table, sqrt: Series.SqrtFn, now: Time, i: nat, build: Builder)
    requires QuietBuilder(build)
    requires Features.Engineer(t, sqrt).Ok? && i < Features.Engineer(t, sqrt).value.height
    ensures var row := Row(Features.Engineer(t, sqrt).value, i);
      build(row, now).Ok? ==> Quiet(Summarize(build(row, now).value))
  {
    Features.SignalNeedsCashout(t, sqrt);
    var row := Row(Features.Engineer(t, sqrt).value, i);
    if build(row, now).Ok? {
      assert Features.CashoutColumn !in row;
    }
  }

  /**
   * `b'` extends `b`: alerts, results and pending records only grow, and the
   * new results are, one for one and in order, the summaries of the new
   * records; with a quiet builder, such as the construction as written, none
   * of them reports a signal.
   */
  ghost predicate Grows(build: Builder, b: Batch, b': Batch)
  {
    && Extends(b, b')
    && forall k :: |b.results| <= k < |b'.results| ==>
         && b'.results[k] == Summarize(b'.records[k - |b.results| + |b.records|])
         && (QuietBuilder(build) ==> Quiet(b'.results[k]))
  }

  lemma GrowsTransitive(build: Builder, x: Batch, y: Batch, z: Batch)
    requires Grows(build, x, y) && Grows(build, y, z)
    ensures Grows(build, x, z)
  {
    forall k | |x.results| <= k < |z.results|
      ensures z.results[k] == Summarize(z.records[k - |x.results| + |x.records|])
      ensures QuietBuilder(build) ==> Quiet(z.results[k])
    {
      if k < |y.results| {
        assert z.results[k] == y.results[k];
        assert z.records[k - |x.results| + |x.records|] == y.records[k - |x.results| + |x.records|];
      }
    }
  }

  lemma WithAlertGrows(build: Builder, b: Batch, alert: string)
    ensures Grows(build, b, WithAlert(b, alert))
  {
  }

  /**
   * One CSV: a parse failure adds exactly one alert and nothing else; a parsed
   * table that engineers and converts cleanly adds no alert and exactly one
   * result and one record per row.
   */
  lemma CsvOutcomes(b: Batch, csv: CsvOutcome, now: Time, sqrt: Series.SqrtFn, build: Builder)
    ensures csv.ParseError? ==>
      CsvStep(b, csv, now, sqrt, build) == Running(Batch(b.alerts + [CsvAlert(csv.message)], b.results, b.records))
    ensures csv.Parsed? && CsvStep(b, csv, now, sqrt, build).Running? ==>
      var b' := CsvStep(b, csv, now, sqrt, build).batch;
      && Features.Engineer(csv.table, sqrt).Ok?
      && b'.alerts == b.alerts
      && |b'.results| == |b.results| + csv.table.height
      && |b'.records| == |b.records| + csv.table.height
    ensures CsvStep(b, csv, now, sqrt, build).Running? ==> Grows(build, b, CsvStep(b, csv, now, sqrt, build).batch)
  {
    if csv.Parsed? && Features.Engineer(csv.table, sqrt).Ok? {
      var t := csv.table;
      Features.EngineerShape(t, sqrt);
      var e := Features.Engineer(t, sqrt).value;
      if RowsStep(b, e, 0, now, build).Running? {
        RowsContents(b, e, 0, now, build);
        var b' := RowsStep(b, e, 0, now, build).batch;
        forall k | |b.results| <= k < |b'.results|
          ensures b'.results[k] == Summarize(b'.records[k - |b.results| + |b.records|])
          ensures QuietBuilder(build) ==> Quiet(b'.results[k])
        {
          var j := k - |b.results|;
          assert b'.results[|b.results| + (j - 0)] == Summarize(build(Row(e, j), now).value);
          if QuietBuilder(build) {
            EngineeredRecordIsQuiet(t, sqrt, now, j, build);
          }
        }
      }
    }
  }

  /** As written, a table with a bat-speed column (or its own oscillator column) and a row aborts the upload. */
  lemma EngineeredCsvAborts(b: Batch, t: Table, now: Time, sqrt: Series.SqrtFn)
    requires Features.AvgBatSpeed in t.data || Features.SignalSource in t.data
    requires t.height > 0
    ensures CsvStep(b, Parsed(t), now, sqrt, BuildRecord).Aborted?
  {
    if Features.Engineer(t, sqrt).Ok? {
      EngineeredRowsCollide(t, sqrt, now, 0);
      RowsRunningIff(b, Features.Engineer(t, sqrt).value, 0, now, BuildRecord);
    }
  }

  /**
   * With the intended construction, a parsed table with a bat-speed column
   * whose features can be computed is stored whole, and each row's summary
   * reports the signal rule's verdict and the oscillator of that row.
   */
  lemma MergedCsvReportsSignal(b: Batch, t: Table, now: Time, sqrt: Series.SqrtFn)
    requires Features.AvgBatSpeed in t.data && Features.Engineer(t, sqrt).Ok?
    ensures NumericView(t.data[Features.AvgBatSpeed]).Some?
    ensures CsvStep(b, Parsed(t), now, sqrt, MergedBuild).Running?
    ensures var b' := CsvStep(b, Parsed(t), now, sqrt, MergedBuild).batch;
      var o := Series.Oscillator(Features.Values(t, Features.AvgBatSpeed), sqrt);
      && b'.alerts == b.alerts
      && |b'.results| == |b.results| + t.height
      && |o| == t.height
      && forall i :: 0 <= i < t.height ==>
           && b'.results[|b.results| + i].cashoutSignal == Flag(o[i].Some? && o[i].value < Series.SignalThreshold)
           && b'.results[|b.results| + i].oscillatorBatSpeed == FromNumber(o[i])
  {
    Features.FeatureColumnNumeric(t, Features.AvgBatSpeed, sqrt);
    var e := Features.Engineer(t, sqrt).value;
    assert CsvStep(b, Parsed(t), now, sqrt, MergedBuild) == RowsStep(b, e, 0, now, MergedBuild);
    MergedRowsGoThrough(b, e, now);
    var b' := RowsStep(b, e, 0, now, MergedBuild).batch;
    var o := Series.Oscillator(Features.Values(t, Features.AvgBatSpeed), sqrt);
    forall i | 0 <= i < t.height
      ensures && b'.results[|b.results| + i].cashoutSignal == Flag(o[i].Some? && o[i].value < Series.SignalThreshold)
              && b'.results[|b.results| + i].oscillatorBatSpeed == FromNumber(o[i])
    {
      MergedRowSummary(b, t, now, sqrt, i, b', o);
    }
  }

  /** With the intended construction every row becomes a record. */
  lemma MergedRowsGoThrough(b: Batch, t: Table, now: Time)
    ensures RowsStep(b, t, 0, now, MergedBuild).Running?
    ensures var b' := RowsStep(b, t, 0, now, MergedBuild).batch;
      b'.alerts == b.alerts && |b'.results| == |b.results| + t.height
  {
    RowsRunningIff(b, t, 0, now, MergedBuild);
    RowsShape(b, t, now, MergedBuild);
  }

  /** The summary of row `i` reports that row's signal verdict and oscillator. */
  lemma MergedRowSummary(b: Batch, t: Table, now: Time, sqrt: Series.SqrtFn, i: nat, b': Batch, o: Series.Column)
    requires Features.AvgBatSpeed in t.data && Features.Engineer(t, sqrt).Ok? && i < t.height
    requires CsvStep(b, Parsed(t), now, sqrt, MergedBuild) == Running(b')
    requires NumericView(t.data[Features.AvgBatSpeed]).Some?
    requires o == Series.Oscillator(Features.Values(t, Features.AvgBatSpeed), sqrt)
    ensures i < |o| && |b.results| + i < |b'.results|
    ensures b'.results[|b.results| + i].cashoutSignal == Flag(o[i].Some? && o[i].value < Series.SignalThreshold)
    ensures b'.results[|b.results| + i].oscillatorBatSpeed == FromNumber(o[i])
  {
    var e := Features.Engineer(t, sqrt).value;
    MergedRecordCarriesSignal(t, sqrt, now, i);
    RowSummaryAt(b, e, now, MergedBuild, i);
  }

  lemma RowsShape(b: Batch, t: Table, now: Time, build: Builder)
    requires RowsStep(b, t, 0, now, build).Running?
    ensures var b' := RowsStep(b, t, 0, now, build).batch;
      b'.alerts == b.alerts && |b'.results| == |b.results| + t.height
  {
    RowsContents(b, t, 0, now, build);
  }

  lemma RowSummaryAt(b: Batch, t: Table, now: Time, build: Builder, i: nat)
    requires RowsStep(b, t, 0, now, build).Running? && i < t.height
    ensures build(Row(t, i), now).Ok?
    ensures var b' := RowsStep(b, t, 0, now, build).batch;
      |b.results| + i < |b'.results| && b'.results[|b.results| + i] == Summarize(build(Row(t, i), now).value)
  {
    RowsContents(b, t, 0, now, build);
    var b' := RowsStep(b, t, 0, now, build).batch;
    assert b'.results[|b.results| + (i - 0)] == Summarize(build(Row(t, i), now).value);
  }

  /** The `.csv` entries of an archive, in `infolist()` order. */
  function CsvEntries(entries: seq<Entry>): (r: seq<Entry>)
    ensures forall e :: e in r ==> e in entries && EndsWith(e.name, CsvSuffix)
    ensures forall e :: e in entries && EndsWith(e.name, CsvSuffix) ==> e in r
    ensures |r| <= |entries|
  {
    if entries == [] then []
    else if EndsWith(entries[0].name, CsvSuffix) then [entries[0]] + CsvEntries(entries[1..])
    else CsvEntries(entries[1..])
  }

  /**
   * The filter keeps order and repeats: the `.csv` entries of `xs + ys` are
   * those of `xs` followed by those of `ys`.
   */
  lemma {:induction false} CsvEntriesAppend(xs: seq<Entry>, ys: seq<Entry>)
    decreases |xs|
    ensures CsvEntries(xs + ys) == CsvEntries(xs) + CsvEntries(ys)
  {
    if xs == [] {
      assert xs + ys == ys;
    } else {
      var x, rest := xs[0], xs[1..];
      AppendTail(xs, ys);
      CsvEntriesAppend(rest, ys);
      var a, c := CsvEntries(rest), CsvEntries(ys);
      if EndsWith(xs[0].name, CsvSuffix) {
        assert CsvEntries(xs + ys) == [x] + (a + c);
        assert CsvEntries(xs) == [x] + a;
        ConsAppend(x, a, c);
      } else {
        assert CsvEntries(xs + ys) == a + c;
      }
    }
  }

  /** Walking an archive is walking its `.csv` entries alone: every other entry is ignored. */
  lemma {:induction false} EntriesFilter(b: Batch, filename: string, entries: seq<Entry>, now: Time, sqrt: Series.SqrtFn, build: Builder)
    decreases |entries|
    ensures EntriesStep(b, filename, entries, now, sqrt, build) == EntriesStep(b, filename, CsvEntries(entries), now, sqrt, build)
  {
    if entries != [] {
      if EndsWith(entries[0].name, CsvSuffix) {
        var r := CsvEntries(entries);
        assert r[0] == entries[0] && r[1..] == CsvEntries(entries[1..]);
        forall b' {
          EntriesFilter(b', filename, entries[1..], now, sqrt, build);
        }
      } else {
        EntriesFilter(b, filename, entries[1..], now, sqrt, build);
      }
    }
  }

  /** An archive entry that would end the archive with a `BadZipFile` alert. */
  predicate Corrupt(e: Entry)
  {
    EndsWith(e.name, CsvSuffix) && e.open.EntryBadZip?
  }

  /**
   * Entries without a corrupt one are walked one after the other: the walk
   * of `xs + ys` is the walk of `xs` continued with `ys`.
   */
  lemma {:induction false} EntriesAppend(b: Batch, filename: string, xs: seq<Entry>, ys: seq<Entry>, now: Time, sqrt: Series.SqrtFn, build: Builder)
    requires forall k :: 0 <= k < |xs| ==> !Corrupt(xs[k])
    decreases |xs|
    ensures EntriesStep(b, filename, xs + ys, now, sqrt, build) ==
      match EntriesStep(b, filename, xs, now, sqrt, build)
      case Aborted(e) => Aborted(e)
      case Running(b') => EntriesStep(b', filename, ys, now, sqrt, build)
  {
    if xs == [] {
      assert xs + ys == ys;
    } else {
      assert (xs + ys)[0] == xs[0] && (xs + ys)[1..] == xs[1..] + ys;
      assert !Corrupt(xs[0]);
      if !EndsWith(xs[0].name, CsvSuffix) {
        EntriesAppend(b, filename, xs[1..], ys, now, sqrt, build);
      } else if xs[0].open.Readable? {
        match CsvStep(b, xs[0].open.csv, now, sqrt, build)
        case Aborted(e) =>
        case Running(b1) =>
          EntriesAppend(b1, filename, xs[1..], ys, now, sqrt, build);
      }
    }
  }

  /**
   * A corrupt entry ends its archive: one alert naming the archive is added to
   * what the entries before it produced, and the entries after it are not read.
   */
  lemma CorruptEntryEndsArchive(b: Batch, filename: string, entries: seq<Entry>, j: nat, now: Time, sqrt: Series.SqrtFn, build: Builder)
    requires j < |entries| && Corrupt(entries[j])
    requires forall k :: 0 <= k < j ==> !Corrupt(entries[k])
    ensures EntriesStep(b, filename, entries, now, sqrt, build) ==
      match EntriesStep(b, filename, entries[..j], now, sqrt, build)
      case Aborted(e) => Aborted(e)
      case Running(b') => Running(WithAlert(b', ZipAlert(filename)))
  {
    assert entries == entries[..j] + entries[j..];
    EntriesAppend(b, filename, entries[..j], entries[j..], now, sqrt, build);
  }

  lemma {:induction false} EntriesGrow(b: Batch, filename: string, entries: seq<Entry>, now: Time, sqrt: Series.SqrtFn, build: Builder)
    decreases |entries|
    ensures EntriesStep(b, filename, entries, now, sqrt, build).Running? ==>
      Grows(build, b, EntriesStep(b, filename, entries, now, sqrt, build).batch)
  {
    if entries != [] {
      if !EndsWith(entries[0].name, CsvSuffix) {
        EntriesGrow(b, filename, entries[1..], now, sqrt, build);
      } else {
        match entries[0].open
        case EntryBadZip => WithAlertGrows(build, b, ZipAlert(filename));
        case EntryFault(_) =>
        case Readable(csv) =>
          CsvOutcomes(b, csv, now, sqrt, build);
          match CsvStep(b, csv, now, sqrt, build)
          case Aborted(_) =>
          case Running(b1) =>
            EntriesGrow(b1, filename, entries[1..], now, sqrt, build);
            if EntriesStep(b1, filename, entries[1..], now, sqrt, build).Running? {
              GrowsTransitive(build, b, b1, EntriesStep(b1, filename, entries[1..], now, sqrt, build).batch);
            }
      }
    }
  }

  lemma FileGrows(b: Batch, f: Upload, now: Time, sqrt: Series.SqrtFn, build: Builder)
    ensures FileStep(b, f, now, sqrt, build).Running? ==> Grows(build, b, FileStep(b, f, now, sqrt, build).batch)
  {
    if EndsWith(f.name, ZipSuffix) {
      match f.asZip
      case BadZip => WithAlertGrows(build, b, ZipAlert(f.name));
      case ArchiveError(_) =>
      case Opened(entries) => EntriesGrow(b, f.name, entries, now, sqrt, build);
    } else if EndsWith(f.name, CsvSuffix) {
      CsvOutcomes(b, f.asCsv, now, sqrt, build);
    }
  }

  /**
   * A walk over uploads that is not aborted only appends: earlier alerts,
   * results and pending records are kept, each new result summarises the new
   * record at the same position, and no new result reports a cashout signal
   * or an oscillator value.
   */
  lemma {:induction false} FilesGrow(b: Batch, files: seq<Upload>, now: Time, sqrt: Series.SqrtFn, build: Builder)
    decreases |files|
    ensures FilesStep(b, files, now, sqrt, build).Running? ==> Grows(build, b, FilesStep(b, files, now, sqrt, build).batch)
  {
    if files != [] {
      FileGrows(b, files[0], now, sqrt, build);
      match FileStep(b, files[0], now, sqrt, build)
      case Aborted(_) =>
      case Running(b1) =>
        FilesGrow(b1, files[1..], now, sqrt, build);
        if FilesStep(b1, files[1..], now, sqrt, build).Running? {
          GrowsTransitive(build, b, b1, FilesStep(b1, files[1..], now, sqrt, build).batch);
        }
    }
  }

  /**
   * As written, a completed upload stores, after what was already pending, only records
   * whose summaries report no cashout signal and no oscillator value.
   */
  lemma CompletedUploadIsQuiet(pending: seq<Record>, files: seq<Upload>, now: Time, sqrt: Series.SqrtFn)
    requires FilesStep(Batch([], [], pending), files, now, sqrt, BuildRecord).Running?
    ensures var b := FilesStep(Batch([], [], pending), files, now, sqrt, BuildRecord).batch;
      && pending <= b.records
      && |b.results| == |b.records| - |pending|
      && forall k :: 0 <= k < |b.results| ==>
           b.results[k] == Summarize(b.records[|pending| + k]) && Quiet(b.results[k])
  {
    AsWrittenIsQuiet();
    var b0 := Batch([], [], pending);
    FilesGrow(b0, files, now, sqrt, BuildRecord);
    var b := FilesStep(b0, files, now, sqrt, BuildRecord).batch;
    assert Grows(BuildRecord, b0, b);
    forall k | 0 <= k < |b.results|
      ensures b.results[k] == Summarize(b.records[|pending| + k]) && Quiet(b.results[k])
    {
      assert |b0.results| <= k < |b.results|;
    }
  }

  /** Head and tail of a concatenation. */
  lemma AppendTail<T>(xs: seq<T>, ys: seq<T>)
    requires xs != []
    ensures (xs + ys)[0] == xs[0] && (xs + ys)[1..] == xs[1..] + ys
  {
  }

  /** Prepending is associative with concatenation. */
  lemma ConsAppend<T>(x: T, a: seq<T>, c: seq<T>)
    ensures [x] + (a + c) == ([x] + a) + c
  {
  }

  /** The uploads that are routed anywhere: names ending in `.zip` or `.csv`. */
  function Routed(files: seq<Upload>): (r: seq<Upload>)
    ensures forall f :: f in r ==> f in files && (EndsWith(f.name, ZipSuffix) || EndsWith(f.name, CsvSuffix))
    ensures forall f :: f in files && (EndsWith(f.name, ZipSuffix) || EndsWith(f.name, CsvSuffix)) ==> f in r
    ensures |r| <= |files|
  {
    if files == [] then []
    else if EndsWith(files[0].name, ZipSuffix) || EndsWith(files[0].name, CsvSuffix) then [files[0]] + Routed(files[1..])
    else Routed(files[1..])
  }

  /**
   * Routing keeps order and repeats: routing `xs + ys` is routing `xs`
   * followed by routing `ys`.
   */
  lemma {:induction false} RoutedAppend(xs: seq<Upload>, ys: seq<Upload>)
    decreases |xs|
    ensures Routed(xs + ys) == Routed(xs) + Routed(ys)
  {
    if xs == [] {
      assert xs + ys == ys;
    } else {
      var x, rest := xs[0], xs[1..];
      AppendTail(xs, ys);
      RoutedAppend(rest, ys);
      var a, c := Routed(rest), Routed(ys);
      if EndsWith(xs[0].name, ZipSuffix) || EndsWith(xs[0].name, CsvSuffix) {
        assert Routed(xs + ys) == [x] + (a + c);
        assert Routed(xs) == [x] + a;
        ConsAppend(x, a, c);
      } else {
        assert Routed(xs + ys) == a + c;
      }
    }
  }

  /** Uploads with any other name are skipped without an alert: dropping them changes nothing. */
  lemma {:induction false} OnlyRoutedFilesMatter(b: Batch, files: seq<Upload>, now: Time, sqrt: Series.SqrtFn, build: Builder)
    decreases |files|
    ensures FilesStep(b, files, now, sqrt, build) == FilesStep(b, Routed(files), now, sqrt, build)
  {
    if files != [] {
      if EndsWith(files[0].name, ZipSuffix) || EndsWith(files[0].name, CsvSuffix) {
        var r := Routed(files);
        assert r[0] == files[0] && r[1..] == Routed(files[1..]);
        forall b' {
          OnlyRoutedFilesMatter(b', files[1..], now, sqrt, build);
        }
      } else {
        OnlyRoutedFilesMatter(b, files[1..], now, sqrt, build);
      }
    }
  }

  /** Uploads are handled in order, each from where the previous ones left the batch. */
  lemma {:induction false} FilesAppend(b: Batch, xs: seq<Upload>, ys: seq<Upload>, now: Time, sqrt: Series.SqrtFn, build: Builder)
    decreases |xs|
    ensures FilesStep(b, xs + ys, now, sqrt, build) ==
      match FilesStep(b, xs, now, sqrt, build)
      case Aborted(e) => Aborted(e)
      case Running(b') => FilesStep(b', ys, now, sqrt, build)
  {
    if xs == [] {
      assert xs + ys == ys;
    } else {
      assert (xs + ys)[0] == xs[0] && (xs + ys)[1..] == xs[1..] + ys;
      match FileStep(b, xs[0], now, sqrt, build)
      case Aborted(e) =>
      case Running(b1) =>
        FilesAppend(b1, xs[1..], ys, now, sqrt, build);
    }
  }

  /**
   * Failure isolation: a `.csv` upload that does not parse, or a `.zip` upload
   * that is not an archive, adds exactly one alert (naming the archive) and the
   * walk goes on with the next upload.
   */
  lemma FailedFileContinues(b: Batch, f: Upload, rest: seq<Upload>, now: Time, sqrt: Series.SqrtFn, build: Builder)
    requires (EndsWith(f.name, CsvSuffix) && f.asCsv.ParseError?) || (EndsWith(f.name, ZipSuffix) && f.asZip.BadZip?)
    ensures FilesStep(b, [f] + rest, now, sqrt, build) ==
      FilesStep(WithAlert(b, if EndsWith(f.name, ZipSuffix) then ZipAlert(f.name) else CsvAlert(f.asCsv.message)), rest, now, sqrt, build)
    ensures EndsWith(f.name, ZipSuffix) ==> ZipAlert(f.name)[20..20 + |f.name|] == f.name
  {
    SuffixesExclusive(f.name);
    assert ([f] + rest)[0] == f && ([f] + rest)[1..] == rest;
  }
}
