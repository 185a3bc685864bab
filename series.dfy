/**
 * The windowed statistics applied to one ordered numeric column during
 * ingestion (app.py, add_delta_and_oscillator): the first difference
 * (`Series.diff()`) and the 5-wide rolling z-score
 * `(v - rolling(5).mean()) / (rolling(5).std() + 1e-6)`, and the
 * threshold that turns the latter into the cash-out signal.
 *
 * A column is a `seq<Option<real>>`; `None` is pandas' NaN.
 */
module Series {
  import opened Wrappers

  type Column = seq<Option<real>>

  /**
   * The square root used by the sample standard deviation is left abstract:
   * all the model relies on is that it is never negative, so that the
   * denominator `sqrt(variance) + 1e-6` is never zero.
   */
  type SqrtFn = f: real -> real | forall x :: 0.0 <= f(x) witness (x: real) => 0.0

  /** `rolling(5)`: window width and, by default, the minimum number of observations. */
  const Window: nat := 5
  /** The stabilising constant added to the standard deviation. */
  const Epsilon: real := 0.000001
  /** `oscillator_avg_bat_speed < -2` raises the cash-out signal. */
  const SignalThreshold: real := -2.0

  // ---------------------------------------------------------------------------
  // Delta (first difference)

  function DeltaAt(v: Column, i: nat): Option<real>
    requires i < |v|
  {
    if i == 0 then None
    else if v[i].Some? && v[i - 1].Some? then Some(v[i].value - v[i - 1].value)
    else None
  }

  /** `df[col].diff()`: one entry per row, missing at row 0 and next to any missing value. */
  function Delta(v: Column): (d: Column)
    ensures |d| == |v|
    ensures |v| > 0 ==> d[0] == None
    ensures forall i :: 0 < i < |v| ==> (d[i].Some? <==> v[i].Some? && v[i - 1].Some?)
    ensures forall i :: 0 < i < |v| && d[i].Some? ==> v[i - 1].value + d[i].value == v[i].value
  {
    seq(|v|, i requires 0 <= i < |v| => DeltaAt(v, i))
  }

  /** A column with no missing value. */
  function Lift(s: seq<real>): (v: Column)
    ensures |v| == |s|
    ensures forall i :: 0 <= i < |s| ==> v[i] == Some(s[i])
  {
    seq(|s|, i requires 0 <= i < |s| => Some(s[i]))
  }

  /** Running sums: the values obtained by starting at `x` and adding each difference in turn. */
  function Integrate(x: real, ds: seq<real>): (r: seq<real>)
    ensures |r| == |ds| + 1 && r[0] == x
    decreases |ds|
  {
    [x] + if ds == [] then [] else Integrate(x + ds[0], ds[1..])
  }

  /** The differences of a column with no missing value, from row 1 on. */
  function Steps(s: seq<real>): (ds: seq<real>)
    requires |s| > 0
    ensures |ds| == |s| - 1
  {
    var d := Delta(Lift(s));
    seq(|s| - 1, k requires 0 <= k < |s| - 1 => d[k + 1].value)
  }

  /** The delta series loses nothing but the first value: summing it back rebuilds the column. */
  lemma {:induction false} DeltaRoundTrip(s: seq<real>)
    requires |s| > 0
    ensures Integrate(s[0], Steps(s)) == s
    decreases |s|
  {
    if |s| > 1 {
      var t := s[1..];
      var ds := Steps(s);
      StepsCons(s);
      assert ds[0] == s[1] - s[0] && ds[1..] == Steps(t);
      DeltaRoundTrip(t);
      assert Integrate(s[0], ds) == [s[0]] + Integrate(s[0] + ds[0], ds[1..]);
      assert s[0] + ds[0] == s[1];
      assert s == [s[0]] + t;
    }
  }

  lemma StepsCons(s: seq<real>)
    requires |s| > 1
    ensures Steps(s) == [s[1] - s[0]] + Steps(s[1..])
  {
    var t := s[1..];
    forall k | 0 <= k < |s| - 1
      ensures Steps(s)[k] == ([s[1] - s[0]] + Steps(t))[k]
    {
      StepAt(s, k);
      if k > 0 {
        StepAt(t, k - 1);
      }
    }
  }

  lemma StepAt(s: seq<real>, k: nat)
    requires k + 1 < |s|
    ensures Steps(s)[k] == s[k + 1] - s[k]
  {
    assert Lift(s)[k + 1] == Some(s[k + 1]) && Lift(s)[k] == Some(s[k]);
  }

  // ---------------------------------------------------------------------------
  // Rolling statistics over one complete window

  function Sum(s: seq<real>): real
    decreases |s|
  {
    if s == [] then 0.0 else s[0] + Sum(s[1..])
  }

  function Mean(s: seq<real>): real
    requires |s| > 0
  {
    Sum(s) / (|s| as real)
  }

  /** Sum of squared deviations from `m`. */
  function SquaredDeviations(s: seq<real>, m: real): real
    decreases |s|
  {
    if s == [] then 0.0 else (s[0] - m) * (s[0] - m) + SquaredDeviations(s[1..], m)
  }

  /** `rolling(...).std()` uses the sample variance (N - 1 in the denominator). */
  function SampleVariance(s: seq<real>): real
    requires |s| > 1
  {
    SquaredDeviations(s, Mean(s)) / ((|s| - 1) as real)
  }

  /** The stabilised sample standard deviation `std + 1e-6`: never zero. */
  function Spread(s: seq<real>, sqrt: SqrtFn): (r: real)
    requires |s| > 1
    ensures r >= Epsilon
  {
    sqrt(SampleVariance(s)) + Epsilon
  }

  /** The z-score of the last value of a complete window against the whole window. */
  function ZScore(s: seq<real>, sqrt: SqrtFn): real
    requires |s| > 1
  {
    (s[|s| - 1] - Mean(s)) / Spread(s, sqrt)
  }

  /** Row `i` has a full window: at least five rows so far and none of the last five missing. */
  predicate WindowComplete(v: Column, i: nat)
    requires i < |v|
  {
    i + 1 >= Window && forall k :: i + 1 - Window <= k <= i ==> v[k].Some?
  }

  /** The five values `v[i-4..i]` of a complete window. */
  function WindowAt(v: Column, i: nat): (w: seq<real>)
    requires i < |v| && WindowComplete(v, i)
    ensures |w| == Window
    ensures forall k :: 0 <= k < Window ==> Some(w[k]) == v[i + 1 - Window + k]
  {
    seq(Window, k requires 0 <= k < Window => v[i + 1 - Window + k].value)
  }

  function OscillatorAt(v: Column, i: nat, sqrt: SqrtFn): Option<real>
    requires i < |v|
  {
    if WindowComplete(v, i) then Some(ZScore(WindowAt(v, i), sqrt)) else None
  }

  /**
   * The oscillator column: same length, missing for the first four rows and for
   * every row whose window holds a missing value (rolling's default
   * `min_periods` is the window width), otherwise the z-score of the window.
   */
  function Oscillator(v: Column, sqrt: SqrtFn): (o: Column)
    ensures |o| == |v|
    ensures forall i :: 0 <= i < |v| && i < Window - 1 ==> o[i] == None
    ensures forall i :: 0 <= i < |v| ==> (o[i].Some? <==> WindowComplete(v, i))
  {
    seq(|v|, i requires 0 <= i < |v| => OscillatorAt(v, i, sqrt))
  }

  /** A present entry is the row's deviation from its window mean over the window's spread. */
  lemma OscillatorValue(v: Column, i: nat, sqrt: SqrtFn)
    requires i < |v| && WindowComplete(v, i)
    ensures Oscillator(v, sqrt)[i] == Some((v[i].value - Mean(WindowAt(v, i))) / Spread(WindowAt(v, i), sqrt))
  {
    OscillatorPresent(v, i, sqrt);
    WindowEndsAtRow(v, i);
    ZScoreOfLast(WindowAt(v, i), v[i].value, sqrt);
  }

  lemma OscillatorPresent(v: Column, i: nat, sqrt: SqrtFn)
    requires i < |v| && WindowComplete(v, i)
    ensures Oscillator(v, sqrt)[i] == Some(ZScore(WindowAt(v, i), sqrt))
  {
  }

  lemma WindowEndsAtRow(v: Column, i: nat)
    requires i < |v| && WindowComplete(v, i)
    ensures WindowAt(v, i)[Window - 1] == v[i].value
  {
  }

  lemma ZScoreOfLast(w: seq<real>, x: real, sqrt: SqrtFn)
    requires |w| > 1 && w[|w| - 1] == x
    ensures ZScore(w, sqrt) == (x - Mean(w)) / Spread(w, sqrt)
  {
  }

  /** Entry `i` of the oscillator depends on the window `v[i-4..i]` only. */
  lemma OscillatorIsLocal(v: Column, w: Column, i: nat, sqrt: SqrtFn)
    requires i < |v| && i < |w| && i + 1 >= Window
    requires v[i + 1 - Window..i + 1] == w[i + 1 - Window..i + 1]
    ensures Oscillator(v, sqrt)[i] == Oscillator(w, sqrt)[i]
  {
    forall k | i + 1 - Window <= k <= i
      ensures v[k] == w[k]
    {
      assert v[k] == v[i + 1 - Window..i + 1][k - (i + 1 - Window)];
    }
    if WindowComplete(v, i) {
      assert WindowAt(v, i) == WindowAt(w, i);
    }
  }

  // ---------------------------------------------------------------------------
  // Properties of the statistics

  lemma {:induction false} SumShift(s: seq<real>, c: real)
    ensures Sum(Shift(s, c)) == Sum(s) + (|s| as real) * c
    decreases |s|
  {
    if s != [] {
      assert Shift(s, c)[1..] == Shift(s[1..], c);
      SumShift(s[1..], c);
    }
  }

  lemma {:induction false} SquaredDeviationsShift(s: seq<real>, m: real, c: real)
    ensures SquaredDeviations(Shift(s, c), m + c) == SquaredDeviations(s, m)
    decreases |s|
  {
    if s != [] {
      assert Shift(s, c)[1..] == Shift(s[1..], c);
      SquaredDeviationsShift(s[1..], m, c);
    }
  }

  function Shift(s: seq<real>, c: real): (r: seq<real>)
    ensures |r| == |s|
    ensures forall k :: 0 <= k < |s| ==> r[k] == s[k] + c
  {
    seq(|s|, k requires 0 <= k < |s| => s[k] + c)
  }

  lemma MeanShift(s: seq<real>, c: real)
    requires |s| > 0
    ensures Mean(Shift(s, c)) == Mean(s) + c
  {
    SumShift(s, c);
    DivAdd(Sum(s), |s| as real, c);
  }

  lemma VarianceShift(s: seq<real>, c: real)
    requires |s| > 1
    ensures SampleVariance(Shift(s, c)) == SampleVariance(s)
  {
    MeanShift(s, c);
    SquaredDeviationsShift(s, Mean(s), c);
  }

  /** Adding the same constant to every value of a window leaves its z-score unchanged. */
  lemma ZScoreShiftInvariant(s: seq<real>, c: real, sqrt: SqrtFn)
    requires |s| > 1
    ensures ZScore(Shift(s, c), sqrt) == ZScore(s, sqrt)
  {
    var t := Shift(s, c);
    MeanShift(s, c);
    VarianceShift(s, c);
    QuotientCongruence(t[|t| - 1] - Mean(t), Spread(t, sqrt), s[|s| - 1] - Mean(s), Spread(s, sqrt));
  }

  lemma QuotientCongruence(a: real, b: real, a': real, b': real)
    requires a == a' && b == b' && b != 0.0
    ensures a / b == a' / b'
  {
  }

  lemma DivAdd(a: real, n: real, c: real)
    requires n > 0.0
    ensures (a + n * c) / n == a / n + c
  {
  }

  lemma DivBelow(num: real, den: real, t: real)
    requires den > 0.0 && num / den < t
    ensures num < t * den
  {
    assert num == (num / den) * den;
  }

  lemma DeclineFromRatio(x: real, m: real, d: real, q: real)
    requires d > 0.0 && q == (x - m) / d && q < SignalThreshold
    ensures m - x > 2.0 * d
  {
    DivBelow(x - m, d, SignalThreshold);
  }

  lemma DivAtLeast(num: real, den: real, t: real)
    requires den > 0.0 && num >= t * den
    ensures num / den >= t
  {
    assert num == (num / den) * den;
  }

  /** A column shifted by a constant: missing values stay missing. */
  function ShiftColumn(v: Column, c: real): (r: Column)
    ensures |r| == |v|
    ensures forall i :: 0 <= i < |v| ==> r[i].Some? == v[i].Some?
    ensures forall i :: 0 <= i < |v| && v[i].Some? ==> r[i].value == v[i].value + c
  {
    seq(|v|, i requires 0 <= i < |v| => if v[i].Some? then Some(v[i].value + c) else None)
  }

  /** The oscillator measures deviation, not level: it ignores a constant offset. */
  lemma OscillatorShiftInvariant(v: Column, c: real, sqrt: SqrtFn)
    ensures Oscillator(ShiftColumn(v, c), sqrt) == Oscillator(v, sqrt)
  {
    forall i | 0 <= i < |v|
      ensures Oscillator(ShiftColumn(v, c), sqrt)[i] == Oscillator(v, sqrt)[i]
    {
      OscillatorShiftAt(v, c, i, sqrt);
    }
  }

  lemma OscillatorShiftAt(v: Column, c: real, i: nat, sqrt: SqrtFn)
    requires i < |v|
    ensures Oscillator(ShiftColumn(v, c), sqrt)[i] == Oscillator(v, sqrt)[i]
  {
    var u := ShiftColumn(v, c);
    if WindowComplete(v, i) {
      assert WindowComplete(u, i);
      assert WindowAt(u, i) == Shift(WindowAt(v, i), c);
      OscillatorPresent(v, i, sqrt);
      OscillatorPresent(u, i, sqrt);
      ZScoreShiftInvariant(WindowAt(v, i), c, sqrt);
    } else {
      assert !WindowComplete(u, i);
    }
  }

  /** So does the delta series. */
  lemma DeltaShiftInvariant(v: Column, c: real)
    ensures Delta(ShiftColumn(v, c)) == Delta(v)
  {
    var u := ShiftColumn(v, c);
    forall i | 0 < i < |v| && v[i].Some? && v[i - 1].Some?
      ensures Delta(u)[i] == Delta(v)[i]
    {
      assert Delta(u)[i].value == (v[i].value + c) - (v[i - 1].value + c);
    }
  }

  lemma {:induction false} SumConstant(s: seq<real>, c: real)
    requires forall k :: 0 <= k < |s| ==> s[k] == c
    ensures Sum(s) == (|s| as real) * c
    decreases |s|
  {
    if s != [] {
      SumConstant(s[1..], c);
    }
  }

  lemma {:induction false} SquaredDeviationsAtValue(s: seq<real>, c: real)
    requires forall k :: 0 <= k < |s| ==> s[k] == c
    ensures SquaredDeviations(s, c) == 0.0
    decreases |s|
  {
    if s != [] {
      SquaredDeviationsAtValue(s[1..], c);
    }
  }

  /** A flat window has z-score 0: the epsilon keeps the division defined. */
  lemma ConstantWindowScoresZero(s: seq<real>, c: real, sqrt: SqrtFn)
    requires |s| > 1
    requires forall k :: 0 <= k < |s| ==> s[k] == c
    ensures ZScore(s, sqrt) == 0.0
  {
    SumConstant(s, c);
    assert Mean(s) == c;
  }

  // ---------------------------------------------------------------------------
  // The cash-out signal

  /** `osc < -2` element-wise; NaN compares false. */
  function Signal(o: Column): (s: seq<bool>)
    ensures |s| == |o|
    ensures forall i :: 0 <= i < |o| ==> (s[i] <==> o[i].Some? && o[i].value < SignalThreshold)
  {
    seq(|o|, i requires 0 <= i < |o| => o[i].Some? && o[i].value < SignalThreshold)
  }

  lemma SignalAt(o: Column, i: nat)
    requires i < |o| && Signal(o)[i]
    ensures o[i].Some? && o[i].value < SignalThreshold
  {
  }

  /** A column with no entry below the threshold raises no signal anywhere. */
  lemma NoSignalAtOrAbove(o: Column)
    requires forall i :: 0 <= i < |o| && o[i].Some? ==> o[i].value >= SignalThreshold
    ensures forall i :: 0 <= i < |o| ==> !Signal(o)[i]
  {
  }

  /**
   * A raised signal means a complete window whose latest value lies more than
   * twice the (stabilised) standard deviation below the window mean.
   */
  lemma SignalMeansDecline(v: Column, i: nat, sqrt: SqrtFn)
    requires i < |v|
    requires Signal(Oscillator(v, sqrt))[i]
    ensures WindowComplete(v, i)
    ensures Mean(WindowAt(v, i)) - v[i].value > 2.0 * Spread(WindowAt(v, i), sqrt)
  {
    var o := Oscillator(v, sqrt);
    SignalAt(o, i);
    assert o[i].Some?;
    var w := WindowAt(v, i);
    OscillatorValue(v, i, sqrt);
    DeclineFromRatio(v[i].value, Mean(w), Spread(w, sqrt), o[i].value);
  }

  lemma FirstExampleWindow()
    ensures Mean([10.0, 12.0, 11.0, 13.0, 9.0]) == 11.0
    ensures SampleVariance([10.0, 12.0, 11.0, 13.0, 9.0]) == 2.5
  {
    var w := [10.0, 12.0, 11.0, 13.0, 9.0];
    assert w[1..][1..][1..][1..][1..] == [];
    assert Sum(w) == 55.0;
    assert SquaredDeviations(w, 11.0) == 10.0;
  }

  lemma SecondExampleWindow()
    ensures Mean([12.0, 11.0, 13.0, 9.0, 8.0]) == 10.6
    ensures SampleVariance([12.0, 11.0, 13.0, 9.0, 8.0]) == 4.3
  {
    var w := [12.0, 11.0, 13.0, 9.0, 8.0];
    assert w[1..][1..][1..][1..][1..] == [];
    assert Sum(w) == 53.0;
    assert SquaredDeviations(w, 10.6) == 17.2;
  }

  /** A root of at least `r * r` is at least `r`. */
  lemma RootAtLeast(x: real, root: real, r: real)
    requires root >= 0.0 && r >= 0.0 && root * root == x && x >= r * r
    ensures root >= r
  {
    if root < r {
      assert (r - root) * (r + root) == r * r - root * root;
      ProductPositive(r - root, r + root);
    }
  }

  lemma ProductPositive(a: real, b: real)
    requires a > 0.0 && b > 0.0
    ensures a * b > 0.0
  {
  }

  function ExampleColumn(): Column
  {
    Lift([10.0, 12.0, 11.0, 13.0, 9.0, 8.0])
  }

  lemma ExampleEntry(sqrt: SqrtFn, i: nat)
    requires i == 4 || i == 5
    ensures var w := if i == 4 then [10.0, 12.0, 11.0, 13.0, 9.0] else [12.0, 11.0, 13.0, 9.0, 8.0];
      Oscillator(ExampleColumn(), sqrt)[i] == Some((w[4] - Mean(w)) / Spread(w, sqrt))
  {
    var v := ExampleColumn();
    assert WindowComplete(v, i);
    assert WindowAt(v, i) == if i == 4 then [10.0, 12.0, 11.0, 13.0, 9.0] else [12.0, 11.0, 13.0, 9.0, 8.0];
    OscillatorValue(v, i, sqrt);
  }

  lemma ExampleFourth(sqrt: SqrtFn)
    ensures Oscillator(ExampleColumn(), sqrt)[4] == Some(-2.0 / (sqrt(2.5) + Epsilon))
  {
    var w := [10.0, 12.0, 11.0, 13.0, 9.0];
    ExampleEntry(sqrt, 4);
    FirstExampleWindow();
    QuotientCongruence(w[4] - Mean(w), Spread(w, sqrt), -2.0, sqrt(2.5) + Epsilon);
  }

  lemma ExampleFifth(sqrt: SqrtFn)
    ensures Oscillator(ExampleColumn(), sqrt)[5] == Some(-2.6 / (sqrt(4.3) + Epsilon))
  {
    var w := [12.0, 11.0, 13.0, 9.0, 8.0];
    ExampleEntry(sqrt, 5);
    SecondExampleWindow();
    QuotientCongruence(w[4] - Mean(w), Spread(w, sqrt), -2.6, sqrt(4.3) + Epsilon);
  }

  /** `num / (root + 1e-6)` stays at or above the threshold once the root is at least `r`. */
  lemma ExampleBound(root: real, r: real, num: real)
    requires root >= r >= 0.0
    requires num <= 0.0 && num >= SignalThreshold * r
    ensures num / (root + Epsilon) >= SignalThreshold
  {
    assert SignalThreshold * (root + Epsilon) <= SignalThreshold * r;
    DivAtLeast(num, root + Epsilon, SignalThreshold);
  }

  /** The behaviour of the worked example for any root that is large enough. */
  lemma ExampleSignalFree(sqrt: SqrtFn)
    requires sqrt(2.5) >= 1.0 && sqrt(4.3) >= 2.0
    ensures var o := Oscillator(ExampleColumn(), sqrt);
      && o[..4] == [None, None, None, None] && o[4].Some? && o[5].Some?
      && Signal(o) == [false, false, false, false, false, false]
  {
    var o := Oscillator(ExampleColumn(), sqrt);
    ExampleFourth(sqrt);
    ExampleFifth(sqrt);
    ExampleBound(sqrt(2.5), 1.0, -2.0);
    ExampleBound(sqrt(4.3), 2.0, -2.6);
    assert o[..4] == [None, None, None, None];
    NoSignalAtOrAbove(o);
    assert Signal(o) == [false, false, false, false, false, false];
  }

  /**
   * The worked example: for the series 10, 12, 11, 13, 9, 8 the first four
   * entries are missing, the last two (about -1.26 and -1.25, see
   * ExampleFourth and ExampleFifth) are present, and no signal is raised.
   */
  lemma ExampleSeries(sqrt: SqrtFn)
    requires sqrt(2.5) * sqrt(2.5) == 2.5
    requires sqrt(4.3) * sqrt(4.3) == 4.3
    ensures var o := Oscillator(ExampleColumn(), sqrt);
      && o[..4] == [None, None, None, None] && o[4].Some? && o[5].Some?
      && Signal(o) == [false, false, false, false, false, false]
  {
    RootAtLeast(2.5, sqrt(2.5), 1.0);
    RootAtLeast(4.3, sqrt(4.3), 2.0);
    ExampleSignalFree(sqrt);
  }
}
