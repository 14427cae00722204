# Urban micro-crop monitoring page: verified model of its decision logic

`app.py` is a Streamlit page for an IoT project. Sensors (a DHT22 for temperature and
humidity, a VEML6070 for UV) report to an InfluxDB bucket, and the page does four things:

- It queries the latest readings of three fields over a chosen lookback window.
- It reduces each field's column to a small statistics record.
- It turns the latest readings into care recommendations.
- It links to external Grafana panels.

This project models the logic under the rendering calls and proves what that logic promises.

| module | file | models |
|---|---|---|
| `Wrappers` | `wrappers.dfy` | `Option` |
| `Frames` | `frames.dfy` | result tables: named columns over rows, column selection, renaming, `pd.concat` of chunks |
| `Query` | `query.dfy` | `query_sensor_data_for_streamlit`: input checks, Flux query text, result shaping, with the store as a parameter |
| `Stats` | `stats.dfy` | `calculate_stats`: rounding to two decimals, min/max/mean, latest/previous, trend |
| `Advice` | `advice.dfy` | the three threshold rules, and the display decision (success box, info boxes, captions) |
| `Panels` | `panels.dfy` | the panel-URL check and the loop showing the panels |
| `Dashboard` | `dashboard.dfy` | the page's wiring: field names, row limit, lookback choices, end-to-end facts |

The model takes the form of the source:

- The query adapter and the result shaping are straight-line code with early returns. They are modelled as functions.
- `calculate_stats` builds its dict key by key. It is the method `Stats.CalculateStats`, proved equal to the function `Stats.StatsOf`.
- The recommendation block appends to a list step by step. It is the method `Advice.Recommend`, proved equal to `Advice.AdviceFor`.
- The loops over the panel table and the message list are `for` loops with invariants: `Panels.ShowPanels` and `Advice.Display`.

Readings are `real`. `round(x, 2)` is modelled concretely as rounding to the nearest hundredth with ties to even, as numpy does. It is proved monotone, within 0.005 of its argument, and exact on values that already have two decimals.

## Model

| member | source | states |
|---|---|---|
| Frames.IndexOf | app.py:45-46 | the position found is the first column with that name, and lies within the columns exactly when the name is a column |
| Frames.Project | app.py:46 | selecting columns gives exactly the requested columns over the same rows, each cell being the row's cell under that column name |
| Frames.UnionColumns | app.py:42 | a column belongs to the stacked chunks exactly when some chunk has it |
| Frames.ConcatThenProject | app.py:41-46 | selecting columns from `pd.concat(chunks)` gives each chunk's projected rows, in chunk order |
| Query.IntToDecimal | app.py:34-37 | the integer written into the query is a non-empty numeral, with a leading minus exactly for negatives |
| Query.DecimalRoundTrip | app.py:34-37 | reading back the decimal text of an integer gives that integer |
| Query.QueryDeterminesWindowAndLimit | app.py:32-38 | for one bucket, measurement and field, equal query texts mean equal lookback windows and equal row limits |
| Query.Shape | app.py:43-50 | no rows or no columns give an empty table silently; a missing `_time` or `_value` gives an empty table and the missing-columns warning; otherwise the columns become exactly [Timestamp, field] over the `_time`/`_value` cells of every row |
| Query.QuerySensorData | app.py:14-55 | a query is sent exactly when the settings and the target are all non-empty; it is the template filled with bucket, window, measurement, field and limit; the table is the empty frame or has columns [Timestamp, field] and at least one row |
| Query.RejectedInputs | app.py:20-25 | incomplete settings, or an empty measurement or field, give an empty table, no query, and the credentials error before the target warning |
| Query.FailedQuery | app.py:39-53 | a store that raises gives an empty table and reports its error text |
| Query.SingleResult | app.py:40-50 | a reply that is one table gives exactly that table's shaping and notice |
| Query.ShapedCells | app.py:45-46 | in the shaped table every row's field cell is that row's `_value` cell and its Timestamp cell the `_time` cell |
| Query.ChunkedResult | app.py:40-50 | a chunked reply gives an empty table when there are no chunks or no rows, the missing-columns warning when a column is absent, and otherwise every chunk's (time, value) rows in chunk order under [Timestamp, field] |
| Stats.RoundHalfEven | app.py:61-67 | the result is within one half of its argument, and a tie goes to the even integer |
| Stats.Round2Monotone | app.py:61-67 | rounding to two decimals never reverses the order of two readings |
| Stats.Round2Close | app.py:61-67 | a rounded reading is within 0.005 of the reading |
| Stats.Round2Exact | app.py:61-67 | a value with two decimals is left unchanged |
| Stats.Round2Twice | app.py:61-67 | rounding twice is rounding once |
| Stats.Min | app.py:61 | the minimum is one of the readings and no reading is below it |
| Stats.Max | app.py:62 | the maximum is one of the readings and no reading is above it |
| Stats.MeanWithin | app.py:63 | the mean of readings that all lie in [lo, hi] lies in [lo, hi] |
| Stats.MeanBetween | app.py:61-63 | the mean lies between the minimum and the maximum |
| Stats.TrendCases | app.py:69-74 | the trend is rising exactly when latest > previous, falling exactly when latest < previous, stable exactly when they are equal |
| Stats.CalculateStats | app.py:57-78 | the record built key by key equals the record of the column's readings; it is `{}` exactly when the table is empty or the column is absent |
| Stats.EmptyExactly | app.py:59-78 | the record is `{}` exactly when there are no readings; the latest reading offered to the rules is then None, and otherwise the rounded first reading |
| Stats.SingleReading | app.py:60-76 | one reading gives min = max = mean = latest = that reading rounded, with no previous reading and no trend |
| Stats.TwoOrMoreReadings | app.py:65-74 | two or more readings give the first two rounded readings as latest and previous, and a trend that follows their comparison in both directions |
| Stats.StatsBounds | app.py:60-67 | every rounded reading, the mean, the latest and the previous reading lie between the recorded minimum and maximum |
| Advice.NoDataNotice | app.py:198-215 | every no-data notice carries the mark `❓` |
| Advice.Recommend | app.py:186-215 | the list appended rule by rule (humidity, then temperature, then UV, each as an if/elif chain) equals the band table's advice for the latest readings |
| Advice.BandThresholds | app.py:193-215 | a missing reading gets exactly its no-data notice; a present one gets the low advisory exactly when strictly below the low bound, the high advisory exactly when strictly above the high bound, and nothing exactly when within the bounds |
| Advice.BoundaryValues | app.py:193-213 | readings of exactly 35/75 %, 15/28 °C and 2/7 UV give no message, and readings just past each bound do |
| Advice.BandAdviceShape | app.py:193-215 | one rule gives at most one message, tagged with its sensor; it is a notice exactly when the reading is missing; and it is absent exactly when a present reading is in band |
| Advice.PerSensor | app.py:186-215 | at most one message per sensor, in the order humidity, temperature, UV; each message is its sensor's band advice, and every sensor whose rule fires appears |
| Advice.MissingReadingNotice | app.py:193-215 | a sensor without a reading gets exactly one message, its no-data notice |
| Advice.AdvisoryTextsUnmarked | app.py:195-213 | no advisory text contains the mark `❓` |
| Advice.MarkMatchesKind | app.py:193-224 | in the engine's list a message carries the mark exactly when it is a no-data notice |
| Advice.Display | app.py:217-224 | one success box when the list is empty or every message is marked; otherwise every message in list order, unmarked ones as info boxes and marked ones as captions |
| Advice.ShownByKind | app.py:217-224 | when marks agree with kinds, the success test is "every message is a notice", and advisories are shown as info boxes and notices as captions |
| Advice.DisplayByKind | app.py:217-224 | the engine's own list is shown by kind: success exactly when all messages are notices, info for advisories and caption for notices |
| Advice.BandNotices | app.py:193-215 | one rule gives only notices exactly when its reading is missing or in band |
| Advice.SuccessExactlyInBand | app.py:186-218 | the success box appears exactly when every present reading lies within its band |
| Advice.NoReadingsShowSuccess | app.py:193-218 | with no reading at all the list is the three no-data notices, and the page shows the success box |
| Panels.Upper | app.py:111 | upper-casing keeps the length and maps every character |
| Panels.ReplaceAbsent | app.py:111 | replacing a text that does not occur leaves the string unchanged |
| Panels.Placeholder | app.py:111 | every placeholder built from a panel name starts with `URL_GRAFANA_PANEL_` |
| Panels.PlaceholderWithoutSuffix | app.py:111 | for a name without either sensor suffix the placeholder is the upper-cased name with spaces turned into underscores |
| Panels.FlaggedIffNotHttp | app.py:111 | a panel URL is flagged as not configured exactly when it does not start with `http` |
| Panels.ShowPanels | app.py:110-122 | one view per panel in table order: not configured when flagged, otherwise a link to its URL |
| Panels.ShippedPanelsNotConfigured | app.py:99-111 | as shipped, every one of the seven panels is flagged as not configured |
| Dashboard.MissingSettingsShowSuccess | app.py:140-218 | without complete settings no query is sent, the three tables and records are empty, and the page shows the success box |
| Dashboard.HumidityWalkthrough | app.py:57-197 | a humidity column of 80 then 82 gives min 80, max 82, mean 81, latest 80, previous 82, trend falling, and the high-humidity advisory |
| Dashboard.StoredReadings | app.py:45-63 | when the store's `_value` cells are numbers, the statistics of the shaped table are taken over exactly those values, in row order |
| Dashboard.EmptyUvTable | app.py:188-215 | an empty UV table gives the empty record and the UV no-data notice |

## Left out

- Streamlit rendering is not modelled: page setup, headers, markdown, the data-frame widgets, the per-column captions and the header and footer (app.py:82-92, 123-131, 149-181, 184, 226-229). The slider's options and its default are kept as constants in `Dashboard`. The panel views and the display outputs stand for the warnings and links actually drawn.
- The InfluxDB client is not modelled: construction, `query_data_frame`, `client.close()` (app.py:27-28, 40, 54-55). The store is a function parameter from the query text to a reply: a list of chunks, a single table, or a raised error.
- The `config` import and `st.stop()` (app.py:7-11) are module loading and process control. The four settings are a `Config` value.
- Query.QuerySensorData: the error and warning texts are not modelled; the model returns which notice is shown (`Notice`).
- Floating point: readings are exact reals, so float64 rounding error in `round` and in the mean does not arise.
- Stats.CalculateStats: pandas skips missing values in `min`/`max`/`mean`. The model instead requires the statistics column to hold numbers in every row (`NumericColumn`).
- Stats.StatsOf: the latest and previous readings are the first two rows, as the source has it. That the rows come newest first is not derived from the query's `sort`. The query text only asks for that order.
- Advice texts: each advisory keeps its icon and bold headline, not the full sentence that follows it. The no-data notices are kept in full. What the proofs use is that advisories lack the mark `❓` and notices carry it.
- Panels.UpperChar: upper-casing covers ASCII and the Latin-1 letters à–þ (except ÷), not all of Unicode; `ß`, `ÿ` and `µ` are left unchanged, while Python maps them to `SS`, `Ÿ` and `Μ`.
- Frames.IndexOf: with duplicate column names the first one is used, whereas pandas would select every column sharing that name.
- Frames.UnionColumns: `pd.concat` orders the union of the chunks' columns by first appearance. Chunks whose cells have differing types are not distinguished.
- Query.ShapedCells and Dashboard.StoredReadings assume the field is not itself called `Timestamp`; with that name the renamed table would have two `Timestamp` columns.
- Calling the query twice with the same inputs gives the same result. This holds because `Query.QuerySensorData` is a function; no separate lemma states it.
- The trend labels ("Subiendo ⬆️" and so on) are the `Trend` values, and the record keys are the fields of `StatsRecord`.
- A one-row column also gets the minimum, maximum and mean, because app.py:60-64 sets them before the length test (app.py:65, 75). See `Stats.SingleReading`.
