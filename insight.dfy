/**
 * The presentation rules of the two stored models (app.py,
 * `generate_divine_insight` and `predict_future` on `NBAStat` and
 * `Omniscience`), on plain values read from a stored row, and what they give
 * on records the upload path produces.
 *
 * A nullable float column is an `Option<real>`; Python's truthiness of such a
 * value is `Truthy`: present and non-zero.
 */
module Insight {
  import opened Wrappers
  import opened Tables
  import Series
  import Features
  import Records
  import Ingest

  predicate Truthy(x: Option<real>)
  {
    x.Some? && x.value != 0.0
  }

  /** `x or 0`. */
  function OrZero(x: Option<real>): (r: real)
    ensures Truthy(x) ==> r == x.value
    ensures !Truthy(x) ==> r == 0.0
  {
    if x.Some? then x.value else 0.0
  }

  /** Python's `int(x)` on a float: truncation toward zero. */
  function Trunc(x: real): (n: int)
    ensures 0.0 <= x ==> n as real <= x < n as real + 1.0
    ensures x < 0.0 ==> n as real - 1.0 < x <= n as real
  {
    if x >= 0.0 then x.Floor else -((-x).Floor)
  }

  // ---------------------------------------------------------------------------
  // Omniscience

  /** The stored fields these rules read. */
  datatype StoredOmniscience = StoredOmniscience(
    avgBatSpeed: Option<real>,
    contact: Option<real>,
    blastPerSwing: Option<real>,
    whiffPerSwing: Option<real>,
    oscillatorBatSpeed: Option<real>)

  const StrongMessage: string := "DIVINE INTERVENTION: Cashout signal STRONG - bat speed in critical decline"
  const PowerMessage: string := "Olympian power: Elite blast rate detected"
  const WeaknessMessage: string := "Mortal weakness: High whiff rate vulnerable to divine pitches"
  const BaselineMessage: string := "Baseline mortal performance"

  const StrongThreshold: real := -2.5
  const BlastThreshold: real := 0.35
  const WhiffThreshold: real := 0.4

  predicate StrongDecline(s: StoredOmniscience)
  {
    Truthy(s.oscillatorBatSpeed) && s.oscillatorBatSpeed.value < StrongThreshold
  }

  predicate ElitePower(s: StoredOmniscience)
  {
    Truthy(s.blastPerSwing) && s.blastPerSwing.value > BlastThreshold
  }

  predicate HighWhiff(s: StoredOmniscience)
  {
    Truthy(s.whiffPerSwing) && s.whiffPerSwing.value > WhiffThreshold
  }

  /** `Omniscience.generate_divine_insight`: the first rule that matches, in a fixed order. */
  function OmniscienceInsight(s: StoredOmniscience): (m: string)
    ensures m == StrongMessage <==> StrongDecline(s)
    ensures m == PowerMessage <==> !StrongDecline(s) && ElitePower(s)
    ensures m == WeaknessMessage <==> !StrongDecline(s) && !ElitePower(s) && HighWhiff(s)
    ensures m == BaselineMessage <==> !StrongDecline(s) && !ElitePower(s) && !HighWhiff(s)
  {
    if StrongDecline(s) then StrongMessage
    else if ElitePower(s) then PowerMessage
    else if HighWhiff(s) then WeaknessMessage
    else BaselineMessage
  }

  /** The `next_10_swings` projection and the fixed career markers. */
  datatype Forecast =
    | NoForecast
    | Forecast(hits: int, blasts: int, whiffs: int, peakAge: real, declineStart: real)

  const PeakAge: real := 27.5
  const CurrentAge: real := 25.0

  function Abs(x: real): real
  {
    if x < 0.0 then -x else x
  }

  /** `max(0.8, 1 - abs(current_age - peak_age)/10)`. */
  function AgeFactor(): (f: real)
    ensures f == 0.8
  {
    var y := 1.0 - Abs(CurrentAge - PeakAge) / 10.0;
    if 0.8 >= y then 0.8 else y
  }

  /** `Omniscience.predict_future`: nothing without a bat speed, otherwise the projection. */
  function OmniscienceForecast(s: StoredOmniscience): (f: Forecast)
    ensures f.NoForecast? <==> !Truthy(s.avgBatSpeed)
    ensures f.Forecast? ==> f.peakAge == PeakAge && f.declineStart == PeakAge + 4.5
  {
    if !Truthy(s.avgBatSpeed) then NoForecast
    else Forecast(
      Trunc(OrZero(s.contact) * 0.3 * AgeFactor()),
      Trunc(OrZero(s.blastPerSwing) * 10.0),
      Trunc(OrZero(s.whiffPerSwing) * 10.0),
      PeakAge,
      PeakAge + 4.5)
  }

  /**
   * For non-negative counts and rates the projection out of ten swings is the
   * whole part of 24% of the contacts and of ten times each rate.
   */
  lemma ForecastCounts(s: StoredOmniscience)
    requires Truthy(s.avgBatSpeed)
    requires 0.0 <= OrZero(s.contact) && 0.0 <= OrZero(s.blastPerSwing) && 0.0 <= OrZero(s.whiffPerSwing)
    ensures var f := OmniscienceForecast(s);
      && 0 <= f.hits && f.hits as real <= 0.24 * OrZero(s.contact) < f.hits as real + 1.0
      && 0 <= f.blasts && f.blasts as real <= 10.0 * OrZero(s.blastPerSwing) < f.blasts as real + 1.0
      && 0 <= f.whiffs && f.whiffs as real <= 10.0 * OrZero(s.whiffPerSwing) < f.whiffs as real + 1.0
  {
    var c := OrZero(s.contact);
    assert c * 0.3 * AgeFactor() == 0.24 * c;
  }

  /** A record's numeric attribute as the stored nullable float. */
  function Number(r: Records.Record, key: string): (x: Option<real>)
    ensures x.Some? <==> key in r.attrs && r.attrs[key].Num?
  {
    if key in r.attrs && r.attrs[key].Num? then Some(r.attrs[key].x) else None
  }

  function Stored(r: Records.Record): StoredOmniscience
  {
    StoredOmniscience(
      Number(r, Features.AvgBatSpeed), Number(r, "contact"), Number(r, "blast_per_swing"),
      Number(r, "whiff_per_swing"), Number(r, Records.OscillatorBatSpeed))
  }

  /**
   * As written, the upload path never stores an oscillator value, so no
   * record it stores can ever get the STRONG insight.
   */
  lemma UploadedRecordsNeverStrong(pending: seq<Records.Record>, files: seq<Ingest.Upload>, now: Records.Time, sqrt: Series.SqrtFn)
    requires Ingest.FilesStep(Ingest.Batch([], [], pending), files, now, sqrt, Records.BuildRecord).Running?
    ensures var b := Ingest.FilesStep(Ingest.Batch([], [], pending), files, now, sqrt, Records.BuildRecord).batch;
      && |pending| <= |b.records|
      && forall k :: |pending| <= k < |b.records| ==> OmniscienceInsight(Stored(b.records[k])) != StrongMessage
  {
    Ingest.CompletedUploadIsQuiet(pending, files, now, sqrt);
    var b := Ingest.FilesStep(Ingest.Batch([], [], pending), files, now, sqrt, Records.BuildRecord).batch;
    forall k | |pending| <= k < |b.records|
      ensures OmniscienceInsight(Stored(b.records[k])) != StrongMessage
    {
      var j := k - |pending|;
      assert Ingest.Quiet(b.results[j]) && b.results[j] == Records.Summarize(b.records[|pending| + j]);
    }
  }

  /**
   * With the intended construction the two thresholds agree: a record that gets
   * the STRONG insight (oscillator below -2.5) also carries the cashout signal
   * (oscillator below -2).
   */
  lemma MergedStrongMeansCashout(t: Table, sqrt: Series.SqrtFn, now: Records.Time, i: nat)
    requires Features.AvgBatSpeed in t.data && Features.Engineer(t, sqrt).Ok? && i < t.height
    ensures i < Features.Engineer(t, sqrt).value.height
    ensures var r := Records.BuildRecordMerged(Row(Features.Engineer(t, sqrt).value, i), now);
      OmniscienceInsight(Stored(r)) == StrongMessage ==> r.attrs[Features.CashoutColumn] == Flag(true)
  {
    Records.MergedRecordCarriesSignal(t, sqrt, now, i);
  }

  // ---------------------------------------------------------------------------
  // NBAStat

  datatype StoredNbaStat = StoredNbaStat(
    name: string,
    position: Option<string>,
    points: Option<real>,
    assists: Option<real>,
    steals: Option<real>,
    blocks: Option<real>,
    minutesPlayed: Option<real>,
    season: string)

  /** The insight strings of `NBAStat.generate_divine_insight`, by the values they format. */
  datatype NbaInsight =
    | ScoringDeity(name: string, ppg: real)
    | PlaymakingVision(apg: real)
    | DefensiveOmnipotence(combined: real)
    | MortalPerformance

  const PointsThreshold: real := 25.0
  const AssistsThreshold: real := 8.0
  const DefenceThreshold: real := 3.0

  predicate Scoring(s: StoredNbaStat)
  {
    Truthy(s.points) && s.points.value > PointsThreshold
  }

  predicate Playmaking(s: StoredNbaStat)
  {
    Truthy(s.assists) && s.assists.value > AssistsThreshold
  }

  /** Both counts must be truthy on their own before their sum is compared. */
  predicate Defending(s: StoredNbaStat)
  {
    Truthy(s.steals) && Truthy(s.blocks) && s.steals.value + s.blocks.value > DefenceThreshold
  }

  /** The position of an insight in the rule order. */
  function Rank(x: NbaInsight): nat
  {
    match x
    case ScoringDeity(_, _) => 0
    case PlaymakingVision(_) => 1
    case DefensiveOmnipotence(_) => 2
    case MortalPerformance => 3
  }

  /** `NBAStat.generate_divine_insight`: every matching rule, in order, or the default. */
  function NbaInsights(s: StoredNbaStat): (r: seq<NbaInsight>)
    ensures 1 <= |r| <= 3
    ensures r == [MortalPerformance] <==> !Scoring(s) && !Playmaking(s) && !Defending(s)
    ensures (exists x :: x in r && x.ScoringDeity?) <==> Scoring(s)
    ensures (exists x :: x in r && x.PlaymakingVision?) <==> Playmaking(s)
    ensures (exists x :: x in r && x.DefensiveOmnipotence?) <==> Defending(s)
    ensures forall x :: x in r && x.ScoringDeity? ==> x == ScoringDeity(s.name, s.points.value)
    ensures forall x :: x in r && x.PlaymakingVision? ==> x == PlaymakingVision(s.assists.value)
    ensures forall x :: x in r && x.DefensiveOmnipotence? ==> x == DefensiveOmnipotence(s.steals.value + s.blocks.value)
    ensures forall i, j :: 0 <= i < j < |r| ==> Rank(r[i]) < Rank(r[j])
  {
    var scoring := if Scoring(s) then [ScoringDeity(s.name, s.points.value)] else [];
    var playmaking := if Playmaking(s) then [PlaymakingVision(s.assists.value)] else [];
    var defending := if Defending(s) then [DefensiveOmnipotence(s.steals.value + s.blocks.value)] else [];
    var found := scoring + playmaking + defending;
    assert forall x :: x in found <==> x in scoring || x in playmaking || x in defending;
    assert Scoring(s) ==> scoring[0] in found;
    assert Playmaking(s) ==> playmaking[0] in found;
    assert Defending(s) ==> defending[0] in found;
    assert MortalPerformance !in found;
    if found == [] then [MortalPerformance] else found
  }

  /**
   * The truthiness guard hides a strong defensive line when either count is
   * exactly zero: five blocks and no steals give no defensive insight.
   */
  lemma ZeroStealsHideDefence(s: StoredNbaStat)
    requires s.steals == Some(0.0) && s.blocks == Some(5.0)
    ensures forall x :: x in NbaInsights(s) ==> !x.DefensiveOmnipotence?
  {
  }

  /** The season's leading year, `season[:4]` read as a number. */
  function DigitValue(c: char): nat
    requires '0' <= c <= '9'
  {
    (c as int - '0' as int) as nat
  }

  predicate AllDigits(s: string)
  {
    forall k :: 0 <= k < |s| ==> '0' <= s[k] <= '9'
  }

  function DigitsValue(s: string): nat
    requires AllDigits(s)
    decreases |s|
  {
    if s == [] then 0 else DigitsValue(s[..|s| - 1]) * 10 + DigitValue(s[|s| - 1])
  }

  function Pow10(n: nat): nat
  {
    if n == 0 then 1 else 10 * Pow10(n - 1)
  }

  /** `n` digits spell a number below `10^n`. */
  lemma {:induction false} DigitsBelow(s: string)
    requires AllDigits(s)
    decreases |s|
    ensures DigitsValue(s) < Pow10(|s|)
  {
    if s != [] {
      DigitsBelow(s[..|s| - 1]);
    }
  }

  /**
   * `float(season[:4])` and `int(season[:4])` for a prefix of decimal digits;
   * anything else raises `ValueError`.
   */
  function SeasonYear(season: string): (y: Option<nat>)
    ensures y.Some? <==> |season| > 0 && forall k :: 0 <= k < |season| && k < 4 ==> '0' <= season[k] <= '9'
    ensures y.Some? ==> y.value < 10000
  {
    var prefix := if |season| <= 4 then season else season[..4];
    if prefix != [] && AllDigits(prefix) then (DigitsBelow(prefix); Pow10UpTo4(|prefix|); Some(DigitsValue(prefix))) else None
  }

  lemma Pow10UpTo4(n: nat)
    requires n <= 4
    ensures Pow10(n) <= 10000
  {
    assert Pow10(1) == 10 && Pow10(2) == 100 && Pow10(3) == 1000 && Pow10(4) == 10000;
  }

  /** The last `n` decimal digits of `y`, with leading zeros: `f"{y:0{n}d}"` for `y < 10^n`. */
  function Digits(y: nat, n: nat): (s: string)
    ensures |s| == n && AllDigits(s)
  {
    if n == 0 then "" else Digits(y / 10, n - 1) + [('0' as int + y % 10) as char]
  }

  /** Rendering `y` in `n` digits and reading it back gives `y`. */
  lemma {:induction false} DigitsValueOfDigits(y: nat, n: nat)
    requires y < Pow10(n)
    ensures DigitsValue(Digits(y, n)) == y
  {
    if n > 0 {
      var s := Digits(y, n);
      assert s[..n - 1] == Digits(y / 10, n - 1);
      DigitsValueOfDigits(y / 10, n - 1);
    }
  }

  /** Reading a digit string and rendering the value in as many digits gives the string back. */
  lemma {:induction false} DigitsOfDigitsValue(s: string)
    requires AllDigits(s)
    decreases |s|
    ensures Digits(DigitsValue(s), |s|) == s
  {
    if s != [] {
      var init := s[..|s| - 1];
      var v := DigitsValue(s);
      assert v / 10 == DigitsValue(init) && v % 10 == DigitValue(s[|s| - 1]);
      DigitsOfDigitsValue(init);
      assert s == init + [s[|s| - 1]];
    }
  }

  /**
   * Every year of at most four digits is read back from its rendering in
   * four digits followed by anything, or from its rendering in fewer digits
   * alone.
   */
  lemma SeasonYearRoundTrip(y: nat, n: nat, tail: string)
    requires 1 <= n <= 4 && y < Pow10(n) && (n == 4 || tail == [])
    ensures SeasonYear(Digits(y, n) + tail) == Some(y)
  {
    var season := Digits(y, n) + tail;
    var prefix := if |season| <= 4 then season else season[..4];
    assert prefix == Digits(y, n);
    DigitsValueOfDigits(y, n);
  }

  /** Conversely, a readable season starts with the rendering of its year. */
  lemma SeasonYearRendering(season: string)
    requires SeasonYear(season).Some?
    ensures var n := if |season| <= 4 then |season| else 4;
      Digits(SeasonYear(season).value, n) == season[..n]
  {
    var n := if |season| <= 4 then |season| else 4;
    var prefix := if |season| <= 4 then season else season[..4];
    assert prefix == season[..n];
    DigitsOfDigitsValue(prefix);
  }

  datatype Projection =
    | UnknownFuture                // the "Unknown future" string
    | SeasonUnreadable             // `float(...)` raises: the exception escapes
    | Projection(nextSeasonPoints: real, peakSeason: int, declineAge: int)

  const GrowthYear: nat := 2023
  const GuardPositions: seq<string> := ["PG", "SG"]

  function Growth(year: nat): real
  {
    if year < GrowthYear then 1.1 else 0.98
  }

  /** `NBAStat.predict_future`, before `round(..., 1)`. */
  function NbaProjection(s: StoredNbaStat): (p: Projection)
    ensures p.UnknownFuture? <==> !Truthy(s.minutesPlayed)
    ensures p.SeasonUnreadable? <==> Truthy(s.minutesPlayed) && SeasonYear(s.season).None?
    ensures p.Projection? ==> p.peakSeason == SeasonYear(s.season).value + 2
    ensures p.Projection? ==> p.declineAge == if s.position.Some? && s.position.value in GuardPositions then 32 else 34
  {
    if !Truthy(s.minutesPlayed) then UnknownFuture
    else match SeasonYear(s.season)
      case None => SeasonUnreadable
      case Some(year) =>
        Projection(
          OrZero(s.points) * Growth(year),
          year + 2,
          if s.position.Some? && s.position.value in GuardPositions then 32 else 34)
  }

  /**
   * The projected points grow for seasons before 2023 and shrink from 2023
   * on, and are never negative for a non-negative scoring average.
   */
  lemma ProjectionDirection(s: StoredNbaStat)
    requires NbaProjection(s).Projection? && 0.0 <= OrZero(s.points)
    ensures var p := NbaProjection(s);
      var year := SeasonYear(s.season).value;
      && 0.0 <= p.nextSeasonPoints
      && (year < GrowthYear ==> OrZero(s.points) <= p.nextSeasonPoints)
      && (year >= GrowthYear ==> p.nextSeasonPoints <= OrZero(s.points))
  {
  }

  /** A "2022-23" season projects growth and a peak in 2024; "2024-25" projects decline. */
  lemma ExampleSeasons()
    ensures SeasonYear("2022-23") == Some(2022)
    ensures SeasonYear("2024-25") == Some(2024)
    ensures SeasonYear("") == None && SeasonYear("22/23") == None
  {
    assert "2022-23"[..4] == "2022";
    assert "2022"[..3] == "202" && "202"[..2] == "20" && "20"[..1] == "2";
    assert "2024-25"[..4] == "2024";
    assert "2024"[..3] == "202";
    assert "22/23"[..4] == "22/2";
    assert !AllDigits("22/2") by { assert "22/2"[2] == '/'; }
  }
}
