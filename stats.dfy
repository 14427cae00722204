/**
 * `calculate_stats`: a column of readings, newest first, reduced to a record of
 * minimum, maximum, mean, latest reading, previous reading and trend, each
 * number rounded to two decimals.
 */
module Stats {
  import opened Wrappers
  import opened Frames

  // ---------------------------------------------------------------------
  // Rounding to two decimals
  // ---------------------------------------------------------------------

  /** The integer nearest to `y`, ties going to the even neighbour (numpy's rint). */
  function RoundHalfEven(y: real): (n: int)
    ensures n as real - 0.5 <= y <= n as real + 0.5
    ensures y == n as real - 0.5 || y == n as real + 0.5 ==> n % 2 == 0
  {
    var f := y.Floor;
    var d := y - f as real;
    if d < 0.5 then f
    else if d > 0.5 then f + 1
    else if f % 2 == 0 then f
    else f + 1
  }

  /** `round(x, 2)` on a reading: the nearest multiple of 0.01, ties to even. */
  function Round2(x: real): real {
    RoundHalfEven(x * 100.0) as real / 100.0
  }

  lemma RoundHalfEvenMonotone(a: real, b: real)
    requires a <= b
    ensures RoundHalfEven(a) <= RoundHalfEven(b)
  {
    var fa, fb := a.Floor, b.Floor;
    if fa == fb {
      assert a - fa as real <= b - fb as real;
    } else {
      assert fa < fb;
    }
  }

  /** Rounding keeps the order of readings (never reverses it). */
  lemma Round2Monotone(x: real, y: real)
    requires x <= y
    ensures Round2(x) <= Round2(y)
  {
    RoundHalfEvenMonotone(x * 100.0, y * 100.0);
  }

  /** A rounded reading is within half a hundredth of the reading. */
  lemma Round2Close(x: real)
    ensures x - 0.005 <= Round2(x) <= x + 0.005
  {
    var n := RoundHalfEven(x * 100.0);
    assert n as real - 0.5 <= x * 100.0 <= n as real + 0.5;
  }

  /** A value that already has two decimals is left as it is; in particular rounding twice
      is rounding once. */
  lemma Round2Exact(k: int)
    ensures Round2(k as real / 100.0) == k as real / 100.0
  {
    assert (k as real / 100.0) * 100.0 == k as real;
    assert (k as real).Floor == k;
  }

  /** Rounding twice is rounding once. */
  lemma Round2Twice(x: real)
    ensures Round2(Round2(x)) == Round2(x)
  {
    Round2Exact(RoundHalfEven(x * 100.0));
  }

  // ---------------------------------------------------------------------
  // Column reductions (pandas' min, max and mean of a column without gaps)
  // ---------------------------------------------------------------------

  function Min(s: seq<real>): (m: real)
    requires |s| > 0
    ensures m in s
    ensures forall i :: 0 <= i < |s| ==> m <= s[i]
  {
    if |s| == 1 then s[0]
    else
      var rest := Min(s[1..]);
      assert forall i :: 1 <= i < |s| ==> s[i] == s[1..][i - 1];
      if s[0] <= rest then s[0] else rest
  }

  function Max(s: seq<real>): (m: real)
    requires |s| > 0
    ensures m in s
    ensures forall i :: 0 <= i < |s| ==> s[i] <= m
  {
    if |s| == 1 then s[0]
    else
      var rest := Max(s[1..]);
      assert forall i :: 1 <= i < |s| ==> s[i] == s[1..][i - 1];
      if s[0] >= rest then s[0] else rest
  }

  function Sum(s: seq<real>): real {
    if |s| == 0 then 0.0 else s[0] + Sum(s[1..])
  }

  function Mean(s: seq<real>): real
    requires |s| > 0
  {
    Sum(s) / |s| as real
  }

  lemma {:induction false} SumBetween(s: seq<real>, lo: real, hi: real)
    requires forall i :: 0 <= i < |s| ==> lo <= s[i] <= hi
    ensures |s| as real * lo <= Sum(s) <= |s| as real * hi
  {
    if |s| > 0 {
      assert forall i :: 0 <= i < |s[1..]| ==> s[1..][i] == s[i + 1];
      SumBetween(s[1..], lo, hi);
      assert |s| as real * lo == (|s[1..]| as real) * lo + lo;
      assert |s| as real * hi == (|s[1..]| as real) * hi + hi;
    }
  }

  lemma QuotientBetween(total: real, n: real, lo: real, hi: real)
    requires n > 0.0 && n * lo <= total <= n * hi
    ensures lo <= total / n <= hi
  {
    var q := total / n;
    assert q * n == total;
    assert (q - lo) * n >= 0.0;
    assert (hi - q) * n >= 0.0;
  }

  /** The mean of readings that all lie in [lo, hi] lies in [lo, hi]. */
  lemma MeanWithin(s: seq<real>, lo: real, hi: real)
    requires |s| > 0
    requires forall i :: 0 <= i < |s| ==> lo <= s[i] <= hi
    ensures lo <= Mean(s) <= hi
  {
    SumBetween(s, lo, hi);
    QuotientBetween(Sum(s), |s| as real, lo, hi);
  }

  /** The mean of a column lies between its minimum and its maximum. */
  lemma MeanBetween(s: seq<real>)
    requires |s| > 0
    ensures Min(s) <= Mean(s) <= Max(s)
  {
    MeanWithin(s, Min(s), Max(s));
  }

  // ---------------------------------------------------------------------
  // The statistics record
  // ---------------------------------------------------------------------

  /** The three-way direction between the latest and the previous reading. */
  datatype Trend = Rising | Falling | Stable

  /** The stats dict; a key that is not set is None. */
  datatype StatsRecord = StatsRecord(minimum: Option<real>, maximum: Option<real>, mean: Option<real>,
                                     latest: Option<real>, previous: Option<real>, trend: Option<Trend>)

  /** `{}`: the record with no key set. */
  const NoStats: StatsRecord := StatsRecord(None, None, None, None, None, None)

  /** Comparison of the rounded latest and previous readings (app.py:69-74). */
  function TrendOf(latest: real, previous: real): Trend {
    if latest > previous then Rising
    else if latest < previous then Falling
    else Stable
  }

  /** The trend is exactly one of the three directions, as the comparison says. */
  lemma TrendCases(latest: real, previous: real)
    ensures TrendOf(latest, previous) == Rising <==> latest > previous
    ensures TrendOf(latest, previous) == Falling <==> latest < previous
    ensures TrendOf(latest, previous) == Stable <==> latest == previous
  {
  }

  /** The column the statistics are taken over holds numbers (`round` accepts nothing else). */
  predicate NumericColumn(df: Frame, name: string) {
    name in df.columns ==> forall i :: 0 <= i < |df.rows| ==> At(df.columns, df.rows[i], name).Num?
  }

  /** `df[name]` as readings, newest first; nothing when the column is absent. */
  function ColumnValues(df: Frame, name: string): (values: seq<real>)
    requires NumericColumn(df, name)
    ensures |values| == (if name in df.columns then |df.rows| else 0)
    ensures forall i :: 0 <= i < |values| ==> Num(values[i]) == At(df.columns, df.rows[i], name)
  {
    if name !in df.columns then []
    else seq(|df.rows|, i requires 0 <= i < |df.rows| => At(df.columns, df.rows[i], name).x)
  }

  /** The record a column of readings reduces to: nothing for no readings; otherwise the
      rounded minimum, maximum, mean and latest reading, and with two or more readings
      also the previous one and the trend between the two. */
  function StatsOf(values: seq<real>): StatsRecord {
    if |values| == 0 then NoStats
    else
      var latest := Round2(values[0]);
      StatsRecord(
        Some(Round2(Min(values))), Some(Round2(Max(values))), Some(Round2(Mean(values))),
        Some(latest),
        if |values| > 1 then Some(Round2(values[1])) else None,
        if |values| > 1 then Some(TrendOf(latest, Round2(values[1]))) else None)
  }

  /** `calculate_stats(df, column_name)`, building the record key by key as app.py:60-76 does. */
  method CalculateStats(df: Frame, column: string) returns (stats: StatsRecord)
    requires NumericColumn(df, column)
    ensures stats == StatsOf(ColumnValues(df, column))
    ensures stats == NoStats <==> IsEmpty(df) || column !in df.columns
  {
    if !IsEmpty(df) && column in df.columns && |df.rows| > 0 {
      var values := ColumnValues(df, column);
      stats := StatsRecord(Some(Round2(Min(values))), Some(Round2(Max(values))), Some(Round2(Mean(values))),
                           None, None, None);
      if |values| > 1 {
        stats := stats.(latest := Some(Round2(values[0])));
        stats := stats.(previous := Some(Round2(values[1])));
        if stats.latest.value > stats.previous.value {
          stats := stats.(trend := Some(Rising));
        } else if stats.latest.value < stats.previous.value {
          stats := stats.(trend := Some(Falling));
        } else {
          stats := stats.(trend := Some(Stable));
        }
      } else if |values| == 1 {
        stats := stats.(latest := Some(Round2(values[0])));
      }
      return;
    }
    stats := NoStats;
  }

  /** `stats.get("Última Lectura") if stats else None`: the latest reading, if any. */
  function LatestOf(stats: StatsRecord): Option<real> {
    if stats == NoStats then None else stats.latest
  }

  /** The record is empty exactly when there are no readings, and then no latest reading is offered;
      otherwise the latest reading is the rounded first one. */
  lemma EmptyExactly(values: seq<real>)
    ensures StatsOf(values) == NoStats <==> |values| == 0
    ensures LatestOf(StatsOf(values)) == if |values| == 0 then None else Some(Round2(values[0]))
  {
  }

  /** One reading: minimum, maximum, mean and latest all equal that reading, rounded;
      there is no previous reading and no trend. */
  lemma SingleReading(values: seq<real>)
    requires |values| == 1
    ensures var r := Round2(values[0]);
      StatsOf(values) == StatsRecord(Some(r), Some(r), Some(r), Some(r), None, None)
  {
    assert Sum(values[1..]) == 0.0;
  }

  /** Two or more readings: latest and previous are the first two rounded readings, and the
      trend rises, falls or stays exactly as latest compares with previous. */
  lemma TwoOrMoreReadings(values: seq<real>)
    requires |values| >= 2
    ensures var s := StatsOf(values);
      && s.latest == Some(Round2(values[0])) && s.previous == Some(Round2(values[1]))
      && s.trend.Some?
      && (s.trend.value == Rising <==> Round2(values[0]) > Round2(values[1]))
      && (s.trend.value == Falling <==> Round2(values[0]) < Round2(values[1]))
      && (s.trend.value == Stable <==> Round2(values[0]) == Round2(values[1]))
  {
  }

  /** Every rounded reading, the mean, the latest and the previous reading lie between the
      recorded minimum and maximum. */
  lemma StatsBounds(values: seq<real>)
    requires |values| > 0
    ensures var s := StatsOf(values);
      && s.minimum.Some? && s.maximum.Some? && s.mean.Some? && s.latest.Some?
      && (forall i :: 0 <= i < |values| ==> s.minimum.value <= Round2(values[i]) <= s.maximum.value)
      && s.minimum.value <= s.mean.value <= s.maximum.value
      && s.minimum.value <= s.latest.value <= s.maximum.value
      && (s.previous.Some? ==> s.minimum.value <= s.previous.value <= s.maximum.value)
  {
    forall i | 0 <= i < |values|
      ensures Round2(Min(values)) <= Round2(values[i]) <= Round2(Max(values))
    {
      Round2Monotone(Min(values), values[i]);
      Round2Monotone(values[i], Max(values));
    }
    MeanBetween(values);
    Round2Monotone(Min(values), Mean(values));
    Round2Monotone(Mean(values), Max(values));
  }
}
