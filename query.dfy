/**
 * The query adapter `query_sensor_data_for_streamlit`: it checks its inputs,
 * builds a Flux query from a fixed template, sends it to the time-series store
 * and shapes what comes back into a (Timestamp, field) table. The store is a
 * function parameter; every failure degrades to an empty table plus a notice.
 */
module Query {
  import opened Wrappers
  import opened Frames

  /** The four connection settings read from the configuration file. */
  datatype Config = Config(url: string, token: string, org: string, bucket: string)

  /** `all([INFLUX_URL, INFLUX_TOKEN, ORG, BUCKET])`: every setting is non-empty. */
  predicate Complete(c: Config) {
    c.url != "" && c.token != "" && c.org != "" && c.bucket != ""
  }

  /** What `query_data_frame` gives back: a list of chunks, one frame, or a raised error. */
  datatype Reply = Chunks(chunks: seq<Frame>) | Single(frame: Frame) | Raised(reason: string)

  /** The user-visible notice `st.error` / `st.warning` shows beside the result, if any. */
  datatype Notice = Silent | CredentialsMissing | TargetMissing | ColumnsMissing | QueryFailed(reason: string)

  /** The table returned, the query text sent to the store (None: nothing was sent), and the notice. */
  datatype Fetch = Fetch(table: Frame, issued: Option<string>, notice: Notice)

  const TimeColumn: string := "_time"
  const ValueColumn: string := "_value"
  const TimestampColumn: string := "Timestamp"

  // ---------------------------------------------------------------------
  // Decimal rendering of the integers placed in the query (Python's str(int))
  // ---------------------------------------------------------------------

  function DigitChar(d: nat): (c: char)
    requires d < 10
    ensures '0' <= c <= '9'
  {
    ('0' as int + d) as char
  }

  function DigitValue(c: char): nat {
    if '0' <= c <= '9' then (c as int - '0' as int) as nat else 0
  }

  predicate IsNumeralChar(c: char) {
    c == '-' || '0' <= c <= '9'
  }

  predicate IsNumeral(s: string) {
    forall i :: 0 <= i < |s| ==> IsNumeralChar(s[i])
  }

  function NatToDecimal(n: nat): (s: string)
    ensures |s| > 0 && forall i :: 0 <= i < |s| ==> '0' <= s[i] <= '9'
  {
    if n < 10 then [DigitChar(n)] else NatToDecimal(n / 10) + [DigitChar(n % 10)]
  }

  function IntToDecimal(n: int): (s: string)
    ensures |s| > 0 && IsNumeral(s)
    ensures s[0] == '-' <==> n < 0
  {
    if n < 0 then "-" + NatToDecimal(-n) else NatToDecimal(n)
  }

  function DecimalToNat(s: string): nat {
    if |s| == 0 then 0 else DecimalToNat(s[..|s| - 1]) * 10 + DigitValue(s[|s| - 1])
  }

  function DecimalToInt(s: string): int {
    if |s| > 0 && s[0] == '-' then -(DecimalToNat(s[1..]) as int) else DecimalToNat(s)
  }

  lemma {:induction false} NatDecimalRoundTrip(n: nat)
    ensures DecimalToNat(NatToDecimal(n)) == n
  {
    var s := NatToDecimal(n);
    if n < 10 {
      assert DigitValue(DigitChar(n)) == n;
      assert s[..|s| - 1] == [];
    } else {
      NatDecimalRoundTrip(n / 10);
      assert s[..|s| - 1] == NatToDecimal(n / 10);
      assert DigitValue(DigitChar(n % 10)) == n % 10;
    }
  }

  lemma SignedDecimal(d: string, m: nat)
    requires DecimalToNat(d) == m
    ensures DecimalToInt("-" + d) == -(m as int)
  {
    assert ("-" + d)[1..] == d;
  }

  lemma UnsignedDecimal(d: string, m: nat)
    requires |d| > 0 && d[0] != '-' && DecimalToNat(d) == m
    ensures DecimalToInt(d) == m
  {
  }

  /** The decimal text of an integer reads back as that integer. */
  lemma DecimalRoundTrip(n: int)
    ensures DecimalToInt(IntToDecimal(n)) == n
  {
    if n < 0 {
      var m: nat := -n;
      NatDecimalRoundTrip(m);
      SignedDecimal(NatToDecimal(m), m);
    } else {
      var m: nat := n;
      NatDecimalRoundTrip(m);
      UnsignedDecimal(NatToDecimal(m), m);
    }
  }

  // ---------------------------------------------------------------------
  // The Flux query template (app.py:32-38)
  // ---------------------------------------------------------------------

  const Q0: string := "\n    from(bucket: \""
  const Q1: string := "\")\n      |> range(start: -"
  const MinutesUnit: string := "m"
  const Q2: string := ")\n      |> filter(fn: (r) => r[\"_measurement\"] == \""
  const Q3: string := "\" and r[\"_field\"] == \""
  const Q4: string := "\")\n      |> sort(columns: [\"_time\"], desc: true)\n      |> limit(n:"
  const Q5: string := ")\n    "

  /** The query text: the points of `measurement`/`field` in `bucket` over the last
      `rangeMinutes` minutes, newest first, at most `limit` of them. It is the template's
      pieces and the parameters placed one after another; the grouping below only
      keeps the proofs short. */
  function FluxQuery(bucket: string, measurement: string, field: string, rangeMinutes: int, limit: int): string {
    QueryHead(bucket) + (IntToDecimal(rangeMinutes) + QueryTail(measurement, field, limit))
  }

  function QueryHead(bucket: string): string {
    Q0 + bucket + Q1
  }

  function QueryFilter(measurement: string, field: string): string {
    MinutesUnit + (Q2 + measurement + Q3 + field + Q4)
  }

  /** The filter part opens with the `m` that closes the range's minutes. */
  lemma FilterStartsWithUnit(measurement: string, field: string)
    ensures |QueryFilter(measurement, field)| > 0 && QueryFilter(measurement, field)[0] == 'm'
  {
  }

  function QueryTail(measurement: string, field: string, limit: int): string {
    QueryFilter(measurement, field) + (IntToDecimal(limit) + Q5)
  }

  /** Length of the run of numeral characters that starts the text. */
  function NumeralLength(s: string): nat {
    if |s| == 0 || !IsNumeralChar(s[0]) then 0 else 1 + NumeralLength(s[1..])
  }

  lemma {:induction false} NumeralLengthOf(x: string, y: string)
    requires IsNumeral(x) && |y| > 0 && !IsNumeralChar(y[0])
    ensures NumeralLength(x + y) == |x|
  {
    if |x| > 0 {
      assert (x + y)[1..] == x[1..] + y;
      NumeralLengthOf(x[1..], y);
    } else {
      assert x + y == y;
    }
  }

  /** Two numerals each followed by a text that does not start with a numeral character
      can be told apart where they meet. */
  lemma SplitAtNumeral(x1: string, y1: string, x2: string, y2: string)
    requires x1 + y1 == x2 + y2
    requires IsNumeral(x1) && IsNumeral(x2)
    requires |y1| > 0 && !IsNumeralChar(y1[0]) && |y2| > 0 && !IsNumeralChar(y2[0])
    ensures x1 == x2 && y1 == y2
  {
    NumeralLengthOf(x1, y1);
    NumeralLengthOf(x2, y2);
    assert x1 == (x1 + y1)[..|x1|];
    assert x2 == (x2 + y2)[..|x2|];
    assert y1 == (x1 + y1)[|x1|..];
    assert y2 == (x2 + y2)[|x2|..];
  }

  lemma CancelPrefix(p: string, a: string, b: string)
    requires p + a == p + b
    ensures a == b
  {
    assert a == (p + a)[|p|..];
    assert b == (p + b)[|p|..];
  }

  /** For one bucket, measurement and field, the query text determines the lookback
      window and the row limit it asks for. */
  lemma QueryDeterminesWindowAndLimit(bucket: string, measurement: string, field: string,
                                      range1: int, limit1: int, range2: int, limit2: int)
    requires FluxQuery(bucket, measurement, field, range1, limit1) == FluxQuery(bucket, measurement, field, range2, limit2)
    ensures range1 == range2 && limit1 == limit2
  {
    var d1, d2 := IntToDecimal(range1), IntToDecimal(range2);
    var t1, t2 := QueryTail(measurement, field, limit1), QueryTail(measurement, field, limit2);
    CancelPrefix(QueryHead(bucket), d1 + t1, d2 + t2);
    FilterStartsWithUnit(measurement, field);
    assert t1[0] == 'm' && t2[0] == 'm';
    SplitAtNumeral(d1, t1, d2, t2);
    var e1, e2 := IntToDecimal(limit1), IntToDecimal(limit2);
    CancelPrefix(QueryFilter(measurement, field), e1 + Q5, e2 + Q5);
    assert Q5[0] == ')';
    SplitAtNumeral(e1, Q5, e2, Q5);
    DecimalRoundTrip(range1);
    DecimalRoundTrip(range2);
    DecimalRoundTrip(limit1);
    DecimalRoundTrip(limit2);
  }

  // ---------------------------------------------------------------------
  // Result shaping (app.py:41-50)
  // ---------------------------------------------------------------------

  /** A list reply is stacked with `pd.concat` (an empty list gives an empty frame). */
  function Materialize(reply: Reply): Frame
    requires !reply.Raised?
  {
    match reply
    case Chunks(chunks) => if |chunks| == 0 then EmptyFrame else Concat(chunks)
    case Single(frame) => frame
  }

  /** Keep `_time` and `_value`, renamed to `Timestamp` and the field name;
      an empty result or one without those columns gives an empty table. */
  function Shape(result: Frame, field: string): (r: (Frame, Notice))
    ensures r.0 == EmptyFrame || (r.0.columns == [TimestampColumn, field] && |r.0.rows| == |result.rows| > 0)
    ensures IsEmpty(result) ==> r == (EmptyFrame, Silent)
    ensures !IsEmpty(result) && (TimeColumn !in result.columns || ValueColumn !in result.columns)
      ==> r == (EmptyFrame, ColumnsMissing)
    ensures !IsEmpty(result) && TimeColumn in result.columns && ValueColumn in result.columns
      ==> (r.1 == Silent && r.0.columns == [TimestampColumn, field]
           && r.0.rows == Project(result, [TimeColumn, ValueColumn]).rows)
  {
    if IsEmpty(result) then (EmptyFrame, Silent)
    else if TimeColumn in result.columns && ValueColumn in result.columns then
      var picked := Project(result, [TimeColumn, ValueColumn]);
      var renamed := Rename(picked, map[TimeColumn := TimestampColumn, ValueColumn := field]);
      assert renamed.columns == [TimestampColumn, field];
      (renamed, Silent)
    else (EmptyFrame, ColumnsMissing)
  }

  /** `query_sensor_data_for_streamlit(measurement, field, range_minutes, limit)`
      against a store that answers each query text with `store(text)`. */
  function QuerySensorData(cfg: Config, measurement: string, field: string, rangeMinutes: int, limit: int,
                           store: string -> Reply): (r: Fetch)
    ensures r.issued == None <==> !Complete(cfg) || measurement == "" || field == ""
    ensures r.issued != None ==> r.issued == Some(FluxQuery(cfg.bucket, measurement, field, rangeMinutes, limit))
    ensures r.table == EmptyFrame || (r.table.columns == [TimestampColumn, field] && |r.table.rows| > 0)
    ensures r.table.columns == [] <==> r.table == EmptyFrame
  {
    if !Complete(cfg) then Fetch(EmptyFrame, None, CredentialsMissing)
    else if measurement == "" || field == "" then Fetch(EmptyFrame, None, TargetMissing)
    else
      var text := FluxQuery(cfg.bucket, measurement, field, rangeMinutes, limit);
      var reply := store(text);
      if reply.Raised? then Fetch(EmptyFrame, Some(text), QueryFailed(reply.reason))
      else
        var shaped := Shape(Materialize(reply), field);
        Fetch(shaped.0, Some(text), shaped.1)
  }

  /** Missing settings or an empty target: an empty table, no query sent, and the matching notice. */
  lemma RejectedInputs(cfg: Config, measurement: string, field: string, rangeMinutes: int, limit: int,
                       store: string -> Reply)
    requires !Complete(cfg) || measurement == "" || field == ""
    ensures var r := QuerySensorData(cfg, measurement, field, rangeMinutes, limit, store);
      r.table == EmptyFrame && r.issued == None
      && r.notice == (if !Complete(cfg) then CredentialsMissing else TargetMissing)
  {
  }

  /** A store that raises: an empty table and the error is reported. */
  lemma FailedQuery(cfg: Config, measurement: string, field: string, rangeMinutes: int, limit: int,
                    store: string -> Reply)
    requires Complete(cfg) && measurement != "" && field != ""
    requires store(FluxQuery(cfg.bucket, measurement, field, rangeMinutes, limit)).Raised?
    ensures var r := QuerySensorData(cfg, measurement, field, rangeMinutes, limit, store);
      r.table == EmptyFrame
      && r.notice == QueryFailed(store(FluxQuery(cfg.bucket, measurement, field, rangeMinutes, limit)).reason)
  {
  }

  /** A reply that is one table is shaped as it is. */
  lemma SingleResult(cfg: Config, measurement: string, field: string, rangeMinutes: int, limit: int,
                     store: string -> Reply, frame: Frame)
    requires Complete(cfg) && measurement != "" && field != ""
    requires store(FluxQuery(cfg.bucket, measurement, field, rangeMinutes, limit)) == Single(frame)
    ensures var r := QuerySensorData(cfg, measurement, field, rangeMinutes, limit, store);
      (r.table, r.notice) == Shape(frame, field)
  {
  }

  /** In a shaped table, the field column of every row holds that row's `_value` cell and the
      Timestamp column its `_time` cell, so the readings passed on are the store's values in
      row order. */
  lemma ShapedCells(result: Frame, field: string)
    requires !IsEmpty(result) && TimeColumn in result.columns && ValueColumn in result.columns
    requires field != TimestampColumn
    ensures var t := Shape(result, field).0;
      && t.columns == [TimestampColumn, field] && |t.rows| == |result.rows|
      && (forall i :: 0 <= i < |t.rows| ==>
            At(t.columns, t.rows[i], field) == At(result.columns, result.rows[i], ValueColumn))
      && (forall i :: 0 <= i < |t.rows| ==>
            At(t.columns, t.rows[i], TimestampColumn) == At(result.columns, result.rows[i], TimeColumn))
  {
    var t := Shape(result, field).0;
    assert IndexOf(t.columns, TimestampColumn) == 0;
    assert IndexOf(t.columns, field) == 1;
    forall i | 0 <= i < |t.rows|
      ensures At(t.columns, t.rows[i], field) == At(result.columns, result.rows[i], ValueColumn)
      ensures At(t.columns, t.rows[i], TimestampColumn) == At(result.columns, result.rows[i], TimeColumn)
    {
      assert t.rows[i] == Reindex(result.columns, result.rows[i], [TimeColumn, ValueColumn]);
    }
  }

  /** A list of chunks whose stacked result has both `_time` and `_value` gives the
      (Timestamp, field) table whose rows are each chunk's (time, value) rows, in chunk order;
      without either column, or with no rows, the table is empty. */
  lemma ChunkedResult(cfg: Config, measurement: string, field: string, rangeMinutes: int, limit: int,
                      store: string -> Reply, chunks: seq<Frame>)
    requires Complete(cfg) && measurement != "" && field != ""
    requires store(FluxQuery(cfg.bucket, measurement, field, rangeMinutes, limit)) == Chunks(chunks)
    ensures var r := QuerySensorData(cfg, measurement, field, rangeMinutes, limit, store);
      var stacked := Concat(chunks);
      && (|chunks| == 0 || IsEmpty(stacked) ==> r.table == EmptyFrame && r.notice == Silent)
      && (|chunks| > 0 && !IsEmpty(stacked) && (TimeColumn !in stacked.columns || ValueColumn !in stacked.columns)
          ==> r.table == EmptyFrame && r.notice == ColumnsMissing)
      && (|chunks| > 0 && !IsEmpty(stacked) && TimeColumn in stacked.columns && ValueColumn in stacked.columns
          ==> (r.notice == Silent && r.table.columns == [TimestampColumn, field]
               && r.table.rows == ProjectedRows(chunks, [TimeColumn, ValueColumn])))
  {
    var stacked := Concat(chunks);
    if |chunks| > 0 && TimeColumn in stacked.columns && ValueColumn in stacked.columns {
      ConcatThenProject(chunks, [TimeColumn, ValueColumn]);
    }
  }
}
