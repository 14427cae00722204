/**
 * The recommendation block of the page: three fixed threshold rules over the
 * latest humidity, temperature and UV readings (app.py:186-215), and the choice
 * of how the resulting messages are shown (app.py:217-224).
 */
module Advice {
  import opened Wrappers
  import opened Stats

  datatype Sensor = Humidity | Temperature | UvIndex

  /** An advisory, or a notice that a sensor has no recent data. */
  datatype Kind = Advisory | Unknown

  datatype Message = Message(sensor: Sensor, kind: Kind, text: string)

  /** The mark that tells a no-data notice from an advisory when the list is shown. */
  const Mark: char := '❓'

  const HumidityLowText: string := "💧 **Humedad Baja:**"
  const HumidityHighText: string := "💧 **Humedad Alta:**"
  const TemperatureHighText: string := "🌡️ **Temperatura Alta:**"
  const TemperatureLowText: string := "🌡️ **Temperatura Baja:**"
  const UvHighText: string := "☀️ **Radiación UV Alta:**"
  const UvLowText: string := "☀️ **Radiación UV Baja:**"

  const NoticeLead: string := "❓ "
  const NoDataTail: string := ": No hay datos recientes para generar recomendaciones."

  /** "❓ <name>: No hay datos recientes ..." */
  function NoDataNotice(name: string): (text: string)
    ensures Mark in text
  {
    assert (NoticeLead + name + NoDataTail)[0] == Mark;
    NoticeLead + name + NoDataTail
  }

  const HumidityLow: real := 35.0
  const HumidityHigh: real := 75.0
  const TemperatureLow: real := 15.0
  const TemperatureHigh: real := 28.0
  const UvLow: real := 2.0
  const UvHigh: real := 7.0

  /** A safe band for one sensor: an advisory strictly below `low`, another strictly
      above `high`, a no-data notice when there is no reading. */
  datatype Band = Band(sensor: Sensor, low: real, high: real, lowText: string, highText: string, noData: string)

  const HumidityBand: Band :=
    Band(Humidity, HumidityLow, HumidityHigh, HumidityLowText, HumidityHighText, NoDataNotice("Humedad"))
  const TemperatureBand: Band :=
    Band(Temperature, TemperatureLow, TemperatureHigh, TemperatureLowText, TemperatureHighText, NoDataNotice("Temperatura"))
  const UvBand: Band :=
    Band(UvIndex, UvLow, UvHigh, UvLowText, UvHighText, NoDataNotice("Índice UV"))

  /** The band rule as a table entry: the messages one sensor contributes. */
  function BandAdvice(b: Band, reading: Option<real>): seq<Message> {
    match reading
    case None => [Message(b.sensor, Unknown, b.noData)]
    case Some(v) =>
      if v < b.low then [Message(b.sensor, Advisory, b.lowText)]
      else if v > b.high then [Message(b.sensor, Advisory, b.highText)]
      else []
  }

  /** The whole list, humidity first, then temperature, then UV. */
  function AdviceFor(temperature: Option<real>, humidity: Option<real>, uv: Option<real>): seq<Message> {
    BandAdvice(HumidityBand, humidity) + BandAdvice(TemperatureBand, temperature) + BandAdvice(UvBand, uv)
  }

  /** The recommendation block, appending message by message as app.py:186-215 does. */
  method Recommend(statsTemp: StatsRecord, statsHum: StatsRecord, statsUv: StatsRecord) returns (recs: seq<Message>)
    ensures recs == AdviceFor(LatestOf(statsTemp), LatestOf(statsHum), LatestOf(statsUv))
  {
    recs := [];
    var lastTemp := LatestOf(statsTemp);
    var lastHum := LatestOf(statsHum);
    var lastUv := LatestOf(statsUv);

    if lastHum.Some? {
      if lastHum.value < HumidityLow {
        recs := recs + [Message(Humidity, Advisory, HumidityLowText)];
      } else if lastHum.value > HumidityHigh {
        recs := recs + [Message(Humidity, Advisory, HumidityHighText)];
      }
    } else {
      recs := recs + [Message(Humidity, Unknown, NoDataNotice("Humedad"))];
    }
    assert recs == BandAdvice(HumidityBand, lastHum);

    if lastTemp.Some? {
      if lastTemp.value > TemperatureHigh {
        recs := recs + [Message(Temperature, Advisory, TemperatureHighText)];
      } else if lastTemp.value < TemperatureLow {
        recs := recs + [Message(Temperature, Advisory, TemperatureLowText)];
      }
    } else {
      recs := recs + [Message(Temperature, Unknown, NoDataNotice("Temperatura"))];
    }
    assert recs == BandAdvice(HumidityBand, lastHum) + BandAdvice(TemperatureBand, lastTemp);

    if lastUv.Some? {
      if lastUv.value > UvHigh {
        recs := recs + [Message(UvIndex, Advisory, UvHighText)];
      } else if lastUv.value < UvLow {
        recs := recs + [Message(UvIndex, Advisory, UvLowText)];
      }
    } else {
      recs := recs + [Message(UvIndex, Unknown, NoDataNotice("Índice UV"))];
    }
  }

  /** A present reading outside [low, high] gets exactly one advisory, the low one strictly
      below `low` and the high one strictly above `high`; a reading on a boundary or inside
      gets none; a missing reading gets exactly the no-data notice. */
  lemma BandThresholds(b: Band, reading: Option<real>)
    requires b.low < b.high && b.lowText != b.highText
    ensures reading == None ==> BandAdvice(b, reading) == [Message(b.sensor, Unknown, b.noData)]
    ensures reading != None ==>
      && (BandAdvice(b, reading) == [Message(b.sensor, Advisory, b.lowText)] <==> reading.value < b.low)
      && (BandAdvice(b, reading) == [Message(b.sensor, Advisory, b.highText)] <==> reading.value > b.high)
      && (BandAdvice(b, reading) == [] <==> b.low <= reading.value <= b.high)
  {
  }

  /** The fixed boundaries are strict: the boundary values themselves give no message,
      values just past them do. */
  lemma BoundaryValues()
    ensures BandAdvice(HumidityBand, Some(35.0)) == [] && BandAdvice(HumidityBand, Some(75.0)) == []
    ensures BandAdvice(HumidityBand, Some(34.99)) == [Message(Humidity, Advisory, HumidityLowText)]
    ensures BandAdvice(HumidityBand, Some(75.01)) == [Message(Humidity, Advisory, HumidityHighText)]
    ensures BandAdvice(TemperatureBand, Some(15.0)) == [] && BandAdvice(TemperatureBand, Some(28.0)) == []
    ensures BandAdvice(TemperatureBand, Some(14.99)) == [Message(Temperature, Advisory, TemperatureLowText)]
    ensures BandAdvice(TemperatureBand, Some(28.01)) == [Message(Temperature, Advisory, TemperatureHighText)]
    ensures BandAdvice(UvBand, Some(2.0)) == [] && BandAdvice(UvBand, Some(7.0)) == []
    ensures BandAdvice(UvBand, Some(1.99)) == [Message(UvIndex, Advisory, UvLowText)]
    ensures BandAdvice(UvBand, Some(7.01)) == [Message(UvIndex, Advisory, UvHighText)]
  {
  }

  /** A band rule gives at most one message, tagged with the band's sensor, and a
      no-data notice exactly when there is no reading. */
  lemma BandAdviceShape(b: Band, reading: Option<real>)
    ensures |BandAdvice(b, reading)| <= 1
    ensures forall m :: m in BandAdvice(b, reading) ==> m.sensor == b.sensor
    ensures forall m :: m in BandAdvice(b, reading) ==> (m.kind == Unknown <==> reading == None)
    ensures forall m :: m in BandAdvice(b, reading) && m.kind == Unknown ==> m.text == b.noData
    ensures forall m :: m in BandAdvice(b, reading) && m.kind == Advisory ==> m.text in {b.lowText, b.highText}
    ensures reading != None ==> (BandAdvice(b, reading) == [] <==> InBand(b, reading))
  {
  }

  function Rank(s: Sensor): nat {
    match s
    case Humidity => 0
    case Temperature => 1
    case UvIndex => 2
  }

  function BandOf(s: Sensor): Band {
    match s
    case Humidity => HumidityBand
    case Temperature => TemperatureBand
    case UvIndex => UvBand
  }

  function ReadingOf(s: Sensor, temperature: Option<real>, humidity: Option<real>, uv: Option<real>): Option<real> {
    match s
    case Humidity => humidity
    case Temperature => temperature
    case UvIndex => uv
  }

  /** The part of the list that belongs to sensor `s`, when the list is `a + b + c`. */
  function Segment(s: Sensor, a: seq<Message>, b: seq<Message>, c: seq<Message>): seq<Message> {
    match s
    case Humidity => a
    case Temperature => b
    case UvIndex => c
  }

  /** Where position `k` of `a + b + c` falls: its message and its sensor's rank. */
  lemma SegmentAt(a: seq<Message>, b: seq<Message>, c: seq<Message>, k: nat)
    requires |a| <= 1 && |b| <= 1 && |c| <= 1
    requires forall m :: m in a ==> m.sensor == Humidity
    requires forall m :: m in b ==> m.sensor == Temperature
    requires forall m :: m in c ==> m.sensor == UvIndex
    requires k < |a + b + c|
    ensures var recs := a + b + c;
      && (k < |a| ==> k == 0 && recs[k] == a[0] && Rank(recs[k].sensor) == 0)
      && (|a| <= k < |a| + |b| ==> k == |a| && recs[k] == b[0] && Rank(recs[k].sensor) == 1)
      && (|a| + |b| <= k ==> k == |a| + |b| && recs[k] == c[0] && Rank(recs[k].sensor) == 2)
      && [recs[k]] == Segment(recs[k].sensor, a, b, c)
  {
    var recs := a + b + c;
    if k < |a| {
      assert recs[k] == a[0] && a[0] in a;
    } else if k < |a| + |b| {
      assert recs[k] == b[0] && b[0] in b;
    } else {
      assert recs[k] == c[0] && c[0] in c;
    }
  }

  /** Three lists of at most one message each, tagged humidity, temperature and UV, put
      one after another. */
  lemma Segments(a: seq<Message>, b: seq<Message>, c: seq<Message>)
    requires |a| <= 1 && |b| <= 1 && |c| <= 1
    requires forall m :: m in a ==> m.sensor == Humidity
    requires forall m :: m in b ==> m.sensor == Temperature
    requires forall m :: m in c ==> m.sensor == UvIndex
    ensures var recs := a + b + c;
      && |recs| <= 3
      && (forall i, j :: 0 <= i < j < |recs| ==> Rank(recs[i].sensor) < Rank(recs[j].sensor))
      && (forall i :: 0 <= i < |recs| ==> [recs[i]] == Segment(recs[i].sensor, a, b, c))
      && (forall s: Sensor :: Segment(s, a, b, c) != [] ==> exists i :: 0 <= i < |recs| && recs[i].sensor == s)
  {
    var recs := a + b + c;
    forall i, j | 0 <= i < j < |recs|
      ensures Rank(recs[i].sensor) < Rank(recs[j].sensor)
    {
      SegmentAt(a, b, c, i);
      SegmentAt(a, b, c, j);
    }
    forall i | 0 <= i < |recs|
      ensures [recs[i]] == Segment(recs[i].sensor, a, b, c)
    {
      SegmentAt(a, b, c, i);
    }
    forall s: Sensor | Segment(s, a, b, c) != []
      ensures exists i :: 0 <= i < |recs| && recs[i].sensor == s
    {
      match s
      case Humidity => SegmentAt(a, b, c, 0);
      case Temperature => SegmentAt(a, b, c, |a|);
      case UvIndex => SegmentAt(a, b, c, |a| + |b|);
    }
  }

  /** At most one message per sensor, in the order humidity, temperature, UV; a sensor has a
      message exactly when its band rule gives one, and that message is the band's. */
  lemma PerSensor(temperature: Option<real>, humidity: Option<real>, uv: Option<real>)
    ensures var recs := AdviceFor(temperature, humidity, uv);
      && |recs| <= 3
      && (forall i, j :: 0 <= i < j < |recs| ==> Rank(recs[i].sensor) < Rank(recs[j].sensor))
      && (forall i :: 0 <= i < |recs| ==>
            [recs[i]] == BandAdvice(BandOf(recs[i].sensor), ReadingOf(recs[i].sensor, temperature, humidity, uv)))
      && (forall s: Sensor :: BandAdvice(BandOf(s), ReadingOf(s, temperature, humidity, uv)) != [] ==>
            exists i :: 0 <= i < |recs| && recs[i].sensor == s)
  {
    var a := BandAdvice(HumidityBand, humidity);
    var b := BandAdvice(TemperatureBand, temperature);
    var c := BandAdvice(UvBand, uv);
    BandAdviceShape(HumidityBand, humidity);
    BandAdviceShape(TemperatureBand, temperature);
    BandAdviceShape(UvBand, uv);
    Segments(a, b, c);
    forall s: Sensor
      ensures Segment(s, a, b, c) == BandAdvice(BandOf(s), ReadingOf(s, temperature, humidity, uv))
    {
      match s
      case Humidity =>
      case Temperature =>
      case UvIndex =>
    }
  }

  /** A sensor without a reading always gets exactly one message, its no-data notice. */
  lemma MissingReadingNotice(temperature: Option<real>, humidity: Option<real>, uv: Option<real>, s: Sensor)
    requires ReadingOf(s, temperature, humidity, uv) == None
    ensures var recs := AdviceFor(temperature, humidity, uv);
      exists i :: 0 <= i < |recs| && recs[i] == Message(s, Unknown, BandOf(s).noData)
        && forall j :: 0 <= j < |recs| && j != i ==> recs[j].sensor != s
  {
    PerSensor(temperature, humidity, uv);
    var recs := AdviceFor(temperature, humidity, uv);
    var i :| 0 <= i < |recs| && recs[i].sensor == s;
    assert [recs[i]] == [Message(s, Unknown, BandOf(s).noData)];
    forall j | 0 <= j < |recs| && j != i
      ensures recs[j].sensor != s
    {
      if j < i {
        assert Rank(recs[j].sensor) < Rank(recs[i].sensor);
      } else {
        assert Rank(recs[i].sensor) < Rank(recs[j].sensor);
      }
    }
  }

  lemma AdvisoryTextsUnmarked()
    ensures Mark !in HumidityLowText && Mark !in HumidityHighText
    ensures Mark !in TemperatureHighText && Mark !in TemperatureLowText
    ensures Mark !in UvHighText && Mark !in UvLowText
  {
  }

  /** Each message carries the mark exactly when it is a no-data notice. */
  predicate MarksMatch(recs: seq<Message>) {
    forall i :: 0 <= i < |recs| ==> (Mark in recs[i].text <==> recs[i].kind == Unknown)
  }

  /** The marks of one band's messages agree with their kinds. */
  lemma BandMarks(b: Band, reading: Option<real>)
    requires Mark in b.noData && Mark !in b.lowText && Mark !in b.highText
    ensures MarksMatch(BandAdvice(b, reading))
  {
  }

  lemma MarksMatchConcat(a: seq<Message>, b: seq<Message>, c: seq<Message>)
    requires MarksMatch(a) && MarksMatch(b) && MarksMatch(c)
    ensures MarksMatch(a + b + c)
  {
    var recs := a + b + c;
    forall i | 0 <= i < |recs|
      ensures Mark in recs[i].text <==> recs[i].kind == Unknown
    {
      if i < |a| {
        assert recs[i] == a[i];
      } else if i < |a| + |b| {
        assert recs[i] == b[i - |a|];
      } else {
        assert recs[i] == c[i - |a| - |b|];
      }
    }
  }

  /** No advisory carries the mark and every no-data notice does, so testing the text for
      the mark is testing the kind. */
  lemma MarkMatchesKind(temperature: Option<real>, humidity: Option<real>, uv: Option<real>)
    ensures var recs := AdviceFor(temperature, humidity, uv);
      forall i :: 0 <= i < |recs| ==> (Mark in recs[i].text <==> recs[i].kind == Unknown)
  {
    AdvisoryTextsUnmarked();
    BandMarks(HumidityBand, humidity);
    BandMarks(TemperatureBand, temperature);
    BandMarks(UvBand, uv);
    MarksMatchConcat(BandAdvice(HumidityBand, humidity), BandAdvice(TemperatureBand, temperature),
                     BandAdvice(UvBand, uv));
  }

  // ---------------------------------------------------------------------
  // Showing the list (app.py:217-224)
  // ---------------------------------------------------------------------

  /** What the page shows for the list: one success box, or per message an info box or a caption. */
  datatype Output = Success(text: string) | Info(text: string) | Caption(text: string)

  const SuccessText: string := "✅ No hay recomendaciones específicas en este momento o no hay datos suficientes."

  /** `not recommendations or all("❓" in rec for rec in recommendations)` */
  predicate NothingToAdvise(recs: seq<Message>) {
    |recs| == 0 || forall i :: 0 <= i < |recs| ==> Mark in recs[i].text
  }

  /** A marked message is shown as a caption, any other as an info box. */
  function Shown(m: Message): Output {
    if Mark in m.text then Caption(m.text) else Info(m.text)
  }

  /** The display decision: one success box when there is nothing to advise, otherwise
      every message in list order. */
  method Display(recs: seq<Message>) returns (out: seq<Output>)
    ensures NothingToAdvise(recs) ==> out == [Success(SuccessText)]
    ensures !NothingToAdvise(recs) ==> |out| == |recs| && forall i :: 0 <= i < |recs| ==> out[i] == Shown(recs[i])
  {
    if |recs| == 0 || forall i | 0 <= i < |recs| :: Mark in recs[i].text {
      out := [Success(SuccessText)];
      return;
    }
    out := [];
    for k := 0 to |recs|
      invariant |out| == k
      invariant forall i :: 0 <= i < k ==> out[i] == Shown(recs[i])
    {
      if Mark !in recs[k].text {
        out := out + [Info(recs[k].text)];
      } else {
        out := out + [Caption(recs[k].text)];
      }
    }
  }

  predicate InBand(b: Band, reading: Option<real>) {
    reading == None || b.low <= reading.value <= b.high
  }

  /** For any list whose marks agree with the kinds: the success box appears exactly when
      every message is a no-data notice, advisories are shown as info boxes and notices as
      captions. */
  lemma ShownByKind(recs: seq<Message>)
    requires forall i :: 0 <= i < |recs| ==> (Mark in recs[i].text <==> recs[i].kind == Unknown)
    ensures NothingToAdvise(recs) <==> forall i :: 0 <= i < |recs| ==> recs[i].kind == Unknown
    ensures forall i :: 0 <= i < |recs| ==>
      Shown(recs[i]) == if recs[i].kind == Advisory then Info(recs[i].text) else Caption(recs[i].text)
  {
  }

  /** The engine's own list is shown by kind (see ShownByKind). */
  lemma DisplayByKind(temperature: Option<real>, humidity: Option<real>, uv: Option<real>)
    ensures var recs := AdviceFor(temperature, humidity, uv);
      && (NothingToAdvise(recs) <==> forall i :: 0 <= i < |recs| ==> recs[i].kind == Unknown)
      && (forall i :: 0 <= i < |recs| ==>
            Shown(recs[i]) == if recs[i].kind == Advisory then Info(recs[i].text) else Caption(recs[i].text))
  {
    MarkMatchesKind(temperature, humidity, uv);
    ShownByKind(AdviceFor(temperature, humidity, uv));
  }

  predicate AllNotices(recs: seq<Message>) {
    forall i :: 0 <= i < |recs| ==> recs[i].kind == Unknown
  }

  /** A band gives only no-data notices exactly when its reading is missing or inside the band. */
  lemma BandNotices(b: Band, reading: Option<real>)
    ensures AllNotices(BandAdvice(b, reading)) <==> InBand(b, reading)
  {
    if !InBand(b, reading) {
      assert BandAdvice(b, reading)[0].kind == Advisory;
    }
  }

  lemma AllNoticesSplit(a: seq<Message>, b: seq<Message>, c: seq<Message>)
    ensures AllNotices(a + b + c) <==> AllNotices(a) && AllNotices(b) && AllNotices(c)
  {
    var recs := a + b + c;
    assert forall i :: 0 <= i < |a| ==> recs[i] == a[i];
    assert forall i :: 0 <= i < |b| ==> recs[|a| + i] == b[i];
    assert forall i :: 0 <= i < |c| ==> recs[|a| + |b| + i] == c[i];
  }

  /** The page shows the single success box exactly when every present reading lies inside
      its band. */
  lemma SuccessExactlyInBand(temperature: Option<real>, humidity: Option<real>, uv: Option<real>)
    ensures NothingToAdvise(AdviceFor(temperature, humidity, uv)) <==>
      InBand(HumidityBand, humidity) && InBand(TemperatureBand, temperature) && InBand(UvBand, uv)
  {
    DisplayByKind(temperature, humidity, uv);
    BandNotices(HumidityBand, humidity);
    BandNotices(TemperatureBand, temperature);
    BandNotices(UvBand, uv);
    AllNoticesSplit(BandAdvice(HumidityBand, humidity), BandAdvice(TemperatureBand, temperature), BandAdvice(UvBand, uv));
  }

  /** With no reading at all the list is the three no-data notices and the page shows the
      single success box. */
  lemma NoReadingsShowSuccess()
    ensures AdviceFor(None, None, None) == [Message(Humidity, Unknown, NoDataNotice("Humedad")),
                                            Message(Temperature, Unknown, NoDataNotice("Temperatura")),
                                            Message(UvIndex, Unknown, NoDataNotice("Índice UV"))]
    ensures NothingToAdvise(AdviceFor(None, None, None))
  {
    assert BandAdvice(HumidityBand, None) == [Message(Humidity, Unknown, NoDataNotice("Humedad"))];
    assert BandAdvice(TemperatureBand, None) == [Message(Temperature, Unknown, NoDataNotice("Temperatura"))];
    assert BandAdvice(UvBand, None) == [Message(UvIndex, Unknown, NoDataNotice("Índice UV"))];
    SuccessExactlyInBand(None, None, None);
  }
}
