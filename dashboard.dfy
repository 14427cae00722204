/**
 * How the page wires the pieces together (app.py:127-147 and 186-190): three
 * queries, one per monitored field, their statistics, and the recommendations
 * drawn from the latest readings.
 */
module Dashboard {
  import opened Wrappers
  import opened Frames
  import opened Query
  import opened Stats
  import opened Advice

  /** The lookback windows offered by the slider, the default one, and the row limit. */
  const LookbackChoices: seq<int> := [10, 30, 60, 120, 180, 240, 360]
  const DefaultLookback: int := 60
  const RowLimit: int := 100

  const AirSensor: string := "airSensor"
  const UvSensor: string := "uv_sensor"
  const TemperatureField: string := "temperature"
  const HumidityField: string := "humidity"
  const UvField: string := "uv_index"

  /** The statistics of a fetched table over its field column. */
  function StatsOfTable(table: Frame, field: string): StatsRecord
    requires NumericColumn(table, field)
  {
    StatsOf(ColumnValues(table, field))
  }

  /** When every `_value` cell of the store's table is a number, the statistics of the shaped
      table are taken over exactly those values, in row order. */
  lemma StoredReadings(result: Frame, field: string)
    requires !IsEmpty(result) && TimeColumn in result.columns && ValueColumn in result.columns
    requires field != TimestampColumn
    requires forall i :: 0 <= i < |result.rows| ==> At(result.columns, result.rows[i], ValueColumn).Num?
    ensures var t := Shape(result, field).0;
      && NumericColumn(t, field)
      && |ColumnValues(t, field)| == |result.rows|
      && forall i :: 0 <= i < |result.rows| ==>
           Num(ColumnValues(t, field)[i]) == At(result.columns, result.rows[i], ValueColumn)
  {
    ShapedCells(result, field);
  }

  /** Without complete connection settings no query is sent, every table and every record
      is empty, and the page shows the single success box instead of three no-data notices. */
  lemma MissingSettingsShowSuccess(cfg: Config, window: int, store: string -> Reply)
    requires !Complete(cfg)
    ensures var t := QuerySensorData(cfg, AirSensor, TemperatureField, window, RowLimit, store);
      var h := QuerySensorData(cfg, AirSensor, HumidityField, window, RowLimit, store);
      var u := QuerySensorData(cfg, UvSensor, UvField, window, RowLimit, store);
      && t.issued == None && h.issued == None && u.issued == None
      && t.table == EmptyFrame && h.table == EmptyFrame && u.table == EmptyFrame
      && StatsOfTable(t.table, TemperatureField) == NoStats
      && StatsOfTable(h.table, HumidityField) == NoStats
      && StatsOfTable(u.table, UvField) == NoStats
      && NothingToAdvise(AdviceFor(LatestOf(StatsOfTable(t.table, TemperatureField)),
                                   LatestOf(StatsOfTable(h.table, HumidityField)),
                                   LatestOf(StatsOfTable(u.table, UvField))))
  {
    RejectedInputs(cfg, AirSensor, TemperatureField, window, RowLimit, store);
    RejectedInputs(cfg, AirSensor, HumidityField, window, RowLimit, store);
    RejectedInputs(cfg, UvSensor, UvField, window, RowLimit, store);
    NoReadingsShowSuccess();
  }

  /** A humidity table with 80 then 82 (newest first) reduces to min 80, max 82, mean 81,
      latest 80, previous 82, falling, and draws the high-humidity advisory. */
  lemma HumidityWalkthrough()
    ensures var table := Frame([TimestampColumn, HumidityField], [[Time(1), Num(80.0)], [Time(0), Num(82.0)]]);
      && NumericColumn(table, HumidityField)
      && StatsOfTable(table, HumidityField)
         == StatsRecord(Some(80.0), Some(82.0), Some(81.0), Some(80.0), Some(82.0), Some(Falling))
      && AdviceFor(None, LatestOf(StatsOfTable(table, HumidityField)), None)[0]
         == Message(Humidity, Advisory, HumidityHighText)
  {
    var table := Frame([TimestampColumn, HumidityField], [[Time(1), Num(80.0)], [Time(0), Num(82.0)]]);
    assert IndexOf(table.columns, HumidityField) == 1;
    var values := ColumnValues(table, HumidityField);
    assert values == [80.0, 82.0];
    Round2Exact(8000);
    Round2Exact(8200);
    Round2Exact(8100);
    assert values[1..] == [82.0] && values[1..][1..] == [];
    assert Sum([82.0]) == 82.0 + Sum([]);
    assert Sum(values) == 80.0 + Sum([82.0]);
  }

  /** An empty UV table gives the empty record and the UV no-data notice. */
  lemma EmptyUvTable()
    ensures StatsOfTable(EmptyFrame, UvField) == NoStats
    ensures AdviceFor(None, None, LatestOf(StatsOfTable(EmptyFrame, UvField)))[2]
      == Message(UvIndex, Unknown, NoDataNotice("Índice UV"))
  {
  }
}
