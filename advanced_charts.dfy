/** The data side of frontend/components/dashboard/advanced-charts.tsx: the
    OHLC interval chosen for a range, the per-symbol records `fetchData`
    fills, the merged timeline of compare mode, and the SMA cards. The OHLC
    and indicator requests are oracles from their URL to what the fetch did;
    the locale time label is an oracle function. */
module AdvancedCharts {
  import opened Common
  import opened ApiService

  /** The interval requested for a time range. */
  function Interval(timeRange: string): (i: string)
    ensures timeRange == "1h" ==> i == "1m"
    ensures timeRange == "24h" ==> i == "15m"
    ensures timeRange != "1h" && timeRange != "24h" ==> i == "1h"
  {
    if timeRange == "1h" then "1m" else if timeRange == "24h" then "15m" else "1h"
  }

  /** What the page fetches for one symbol. */
  function OhlcFor(server: string -> Fetched<seq<OhlcItem>>, base: string, symbol: string, timeRange: string)
    : Option<seq<OhlcItem>>
  {
    GetOhlcData(server, base, symbol, Some(Interval(timeRange)), Some(timeRange))
  }

  /** `newChartData` once every task is done: an entry for each selected
      symbol whose OHLC request returned a body. */
  function ChartDataOf(selected: seq<string>, server: string -> Fetched<seq<OhlcItem>>, base: string,
                       timeRange: string, timeLabel: string -> string): map<string, seq<ChartCandle>>
  {
    map s | s in selected && OhlcFor(server, base, s, timeRange).Some? ::
      TransformOhlc(OhlcFor(server, base, s, timeRange).value, timeLabel)
  }

  /** `newIndicators` once every task is done. */
  function IndicatorsOf(selected: seq<string>, server: string -> Fetched<IndicatorsBody>, base: string)
    : map<string, IndicatorsBody>
  {
    map s | s in selected && GetIndicators(server, base, s).Some? :: GetIndicators(server, base, s).value
  }

  /** No symbol outside the selection gets an entry, and a selected symbol
      gets one exactly when its request succeeded. */
  lemma EntriesOnlyForFetched(selected: seq<string>, ohlc: string -> Fetched<seq<OhlcItem>>,
                              ind: string -> Fetched<IndicatorsBody>, base: string, timeRange: string,
                              timeLabel: string -> string, s: string)
    ensures s in ChartDataOf(selected, ohlc, base, timeRange, timeLabel) <==>
      s in selected && ohlc(OhlcUrl(base, s, Some(Interval(timeRange)), Some(timeRange))).Body?
    ensures s in IndicatorsOf(selected, ind, base) <==> s in selected && ind(IndicatorsUrl(base, s)).Body?
    ensures s in ChartDataOf(selected, ohlc, base, timeRange, timeLabel) ==>
      |ChartDataOf(selected, ohlc, base, timeRange, timeLabel)[s]| ==
      |ohlc(OhlcUrl(base, s, Some(Interval(timeRange)), Some(timeRange))).value|
  {
  }

  lemma ChartDataStep(selected: seq<string>, i: nat, server: string -> Fetched<seq<OhlcItem>>, base: string,
                      timeRange: string, timeLabel: string -> string)
    requires i < |selected|
    ensures var o := OhlcFor(server, base, selected[i], timeRange);
      ChartDataOf(selected[..i + 1], server, base, timeRange, timeLabel) ==
        if o.Some? then ChartDataOf(selected[..i], server, base, timeRange, timeLabel)[selected[i] := TransformOhlc(o.value, timeLabel)]
        else ChartDataOf(selected[..i], server, base, timeRange, timeLabel)
  {
    assert forall s :: s in selected[..i + 1] <==> s in selected[..i] || s == selected[i] by {
      assert selected[..i + 1] == selected[..i] + [selected[i]];
    }
  }

  lemma IndicatorsStep(selected: seq<string>, i: nat, server: string -> Fetched<IndicatorsBody>, base: string)
    requires i < |selected|
    ensures var d := GetIndicators(server, base, selected[i]);
      IndicatorsOf(selected[..i + 1], server, base) ==
        if d.Some? then IndicatorsOf(selected[..i], server, base)[selected[i] := d.value]
        else IndicatorsOf(selected[..i], server, base)
  {
    assert forall s :: s in selected[..i + 1] <==> s in selected[..i] || s == selected[i] by {
      assert selected[..i + 1] == selected[..i] + [selected[i]];
    }
  }

  /* ---------- compare mode ---------- */

  /** Every timestamp of every series in the record. */
  function AllTimestamps(chartData: map<string, seq<ChartCandle>>): set<string>
  {
    set s, i | s in chartData && 0 <= i < |chartData[s]| :: chartData[s][i].timestamp
  }

  /** The timestamps of the series under the keys in `done`. */
  function TimestampsUnder(chartData: map<string, seq<ChartCandle>>, done: set<string>): set<string>
  {
    set s, i | s in chartData && s in done && 0 <= i < |chartData[s]| :: chartData[s][i].timestamp
  }

  /** The timestamps of a prefix of one series. */
  function TimestampsOf(series: seq<ChartCandle>): set<string>
  {
    set i | 0 <= i < |series| :: series[i].timestamp
  }

  predicate StrictlyAscending(r: seq<string>)
  {
    forall i, j :: 0 <= i < j < |r| ==> StrLess(r[i], r[j])
  }

  /** `x` put in its place in an ascending list. */
  function InsertSorted(r: seq<string>, x: string): (r': seq<string>)
    requires StrictlyAscending(r)
    ensures StrictlyAscending(r')
    ensures forall t :: t in r' <==> t in r || t == x
  {
    if r == [] then [x]
    else if StrLess(x, r[0]) then
      forall j | 0 <= j < |r| ensures StrLess(x, r[j]) {
        if j > 0 { StrLessTransitive(x, r[0], r[j]); }
      }
      [x] + r
    else if x == r[0] then r
    else
      StrLessTotal(x, r[0]);
      var rest := InsertSorted(r[1..], x);
      assert forall t :: t in rest ==> StrLess(r[0], t) by {
        forall t | t in rest ensures StrLess(r[0], t) {
          if t != x {
            var j :| 0 <= j < |r[1..]| && r[1..][j] == t;
            assert r[j + 1] == t;
          }
        }
      }
      assert forall i :: 0 <= i < |rest| ==> rest[i] in rest;
      [r[0]] + rest
  }

  /** `Array.from(timePoints).sort()`. */
  method SortTimestamps(ts: set<string>) returns (r: seq<string>)
    ensures StrictlyAscending(r)
    ensures forall t :: t in r <==> t in ts
  {
    r := [];
    var rest := ts;
    while rest != {}
      invariant rest <= ts
      invariant StrictlyAscending(r)
      invariant forall t :: t in r <==> t in ts && t !in rest
      decreases |rest|
    {
      var x :| x in rest;
      r := InsertSorted(r, x);
      rest := rest - {x};
    }
  }

  /** The forEach loops that fill `timePoints`. */
  method CollectTimestamps(chartData: map<string, seq<ChartCandle>>) returns (ts: set<string>)
    ensures ts == AllTimestamps(chartData)
  {
    ts := {};
    var todo := chartData.Keys;
    ghost var done: set<string> := {};
    while todo != {}
      invariant todo + done == chartData.Keys && todo !! done
      invariant ts == TimestampsUnder(chartData, done)
      decreases |todo|
    {
      var s :| s in todo;
      var series := chartData[s];
      var before := ts;
      for i := 0 to |series|
        invariant ts == before + TimestampsOf(series[..i])
      {
        assert TimestampsOf(series[..i + 1]) == TimestampsOf(series[..i]) + {series[i].timestamp} by {
          assert forall k :: 0 <= k < i ==> series[..i + 1][k] == series[..i][k];
        }
        ts := ts + {series[i].timestamp};
      }
      assert series[..|series|] == series;
      assert TimestampsUnder(chartData, done + {s}) == TimestampsUnder(chartData, done) + TimestampsOf(series);
      todo := todo - {s};
      done := done + {s};
    }
    assert done == chartData.Keys;
  }

  /* One symbol's fields in a merged point; the chart points carry no volume, so
     `<symbol>_volume` is always set to `undefined`. */
  datatype SymbolValues = SymbolValues(close: real, volume: Option<real>)

  datatype MergedPoint = MergedPoint(timestamp: string, time: string, values: map<string, SymbolValues>)

  /** `data.find((d) => d.timestamp === timestamp)`. */
  function FindAt(series: seq<ChartCandle>, t: string): (r: Option<nat>)
    ensures r.None? <==> forall k :: 0 <= k < |series| ==> series[k].timestamp != t
    ensures r.Some? ==> r.value < |series| && series[r.value].timestamp == t
    ensures r.Some? ==> forall k :: 0 <= k < r.value ==> series[k].timestamp != t
  {
    if series == [] then None
    else if series[0].timestamp == t then Some(0)
    else
      var r := FindAt(series[1..], t);
      assert forall k :: 1 <= k < |series| ==> series[k] == series[1..][k - 1];
      if r.Some? then Some(r.value + 1) else None
  }

  /** The point built for one timestamp. */
  function PointAt(selected: seq<string>, chartData: map<string, seq<ChartCandle>>, t: string): MergedPoint
  {
    MergedPoint(t, t,
      map s | s in selected && s in chartData && FindAt(chartData[s], t).Some? ::
        SymbolValues(chartData[s][FindAt(chartData[s], t).value].close, None))
  }

  /** A symbol has fields at `t` exactly when it is selected and its series
      has a point at `t`; the close is that of its first such point. */
  lemma PointFields(selected: seq<string>, chartData: map<string, seq<ChartCandle>>, t: string, s: string)
    ensures PointAt(selected, chartData, t).timestamp == t && PointAt(selected, chartData, t).time == t
    ensures s in PointAt(selected, chartData, t).values <==>
      s in selected && s in chartData && exists k :: 0 <= k < |chartData[s]| && chartData[s][k].timestamp == t
    ensures s in PointAt(selected, chartData, t).values ==>
      exists k :: 0 <= k < |chartData[s]| && chartData[s][k].timestamp == t &&
        (forall j :: 0 <= j < k ==> chartData[s][j].timestamp != t) &&
        PointAt(selected, chartData, t).values[s] == SymbolValues(chartData[s][k].close, None)
  {
    if s in PointAt(selected, chartData, t).values {
      var k := FindAt(chartData[s], t).value;
      assert chartData[s][k].timestamp == t;
    }
  }

  /** What the chart is drawn from. */
  datatype Series = Merged(points: seq<MergedPoint>) | Single(candles: seq<ChartCandle>)

  /** `chartData[selectedAssets[0]] || []`; with no selection the key looked
      up is the string "undefined". */
  function FirstSeries(selected: seq<string>, chartData: map<string, seq<ChartCandle>>): (r: seq<ChartCandle>)
    ensures selected != [] && selected[0] in chartData ==> r == chartData[selected[0]]
    ensures selected != [] && selected[0] !in chartData ==> r == []
  {
    var key := if selected == [] then "undefined" else selected[0];
    if key in chartData then chartData[key] else []
  }

  function Timestamps(points: seq<MergedPoint>): (r: seq<string>)
    ensures |r| == |points| && forall i :: 0 <= i < |points| ==> r[i] == points[i].timestamp
  {
    seq(|points|, i requires 0 <= i < |points| => points[i].timestamp)
  }

  /** `mergedData`: in compare mode with two or more symbols, one point per
      distinct timestamp of the record in ascending order; otherwise the first
      symbol's series. */
  method MergedData(compareMode: bool, selected: seq<string>, chartData: map<string, seq<ChartCandle>>)
    returns (r: Series)
    ensures compareMode && |selected| > 1 ==> r.Merged?
    ensures r.Merged? ==> StrictlyAscending(Timestamps(r.points))
    ensures r.Merged? ==> forall t :: t in Timestamps(r.points) <==> t in AllTimestamps(chartData)
    ensures r.Merged? ==> forall i :: 0 <= i < |r.points| ==> r.points[i] == PointAt(selected, chartData, r.points[i].timestamp)
    ensures !(compareMode && |selected| > 1) ==> r == Single(FirstSeries(selected, chartData))
  {
    if compareMode && |selected| > 1 {
      var ts := CollectTimestamps(chartData);
      var timeline := SortTimestamps(ts);
      var points := seq(|timeline|, i requires 0 <= i < |timeline| => PointAt(selected, chartData, timeline[i]));
      assert Timestamps(points) == timeline;
      r := Merged(points);
    } else {
      r := Single(FirstSeries(selected, chartData));
    }
  }

  /** Two ascending lists with the same elements are equal: the merged
      timeline is determined by the record. */
  lemma {:induction false} AscendingUnique(a: seq<string>, b: seq<string>)
    requires StrictlyAscending(a) && StrictlyAscending(b)
    requires forall t :: t in a <==> t in b
    ensures a == b
  {
    SameElementsBothEmpty(a, b);
    if a != [] && b != [] {
      assert b[0] in a && a[0] in b;
      if a[0] != b[0] {
        var i :| 0 <= i < |a| && a[i] == b[0];
        var j :| 0 <= j < |b| && b[j] == a[0];
        assert StrLess(a[0], b[0]) && StrLess(b[0], a[0]);
        StrLessAsymmetric(a[0], b[0]);
      }
      assert a[0] == b[0];
      forall t ensures t in a[1..] <==> t in b[1..] {
        if t in a[1..] {
          var i :| 0 <= i < |a[1..]| && a[1..][i] == t;
          assert StrLess(a[0], a[i + 1]);
          if t == b[0] { StrLessIrreflexive(t); }
          assert a[i + 1] in a;
          var j :| 0 <= j < |b| && b[j] == t;
          assert b[1..][j - 1] == t;
        }
        if t in b[1..] {
          var j :| 0 <= j < |b[1..]| && b[1..][j] == t;
          assert StrLess(b[0], b[j + 1]);
          if t == a[0] { StrLessIrreflexive(t); }
          assert b[j + 1] in b;
          var i :| 0 <= i < |a| && a[i] == t;
          assert a[1..][i - 1] == t;
        }
      }
      AscendingUnique(a[1..], b[1..]);
      assert a == [a[0]] + a[1..] && b == [b[0]] + b[1..];
    }
  }

  lemma SameElementsBothEmpty(a: seq<string>, b: seq<string>)
    requires forall t :: t in a <==> t in b
    ensures a == [] <==> b == []
  {
    if a != [] { assert a[0] in a; }
    if b != [] { assert b[0] in b; }
  }

  /** No timestamp occurs twice in an ascending timeline. */
  lemma AscendingDistinct(r: seq<string>, i: nat, j: nat)
    requires StrictlyAscending(r) && i < j < |r|
    ensures r[i] != r[j]
  {
    if r[i] == r[j] { StrLessIrreflexive(r[i]); }
  }

  /* ---------- the SMA cards ---------- */

  datatype Trend = Up | Down

  /** JavaScript's `a > b` on two JSON numbers that may be `null`, which
      compares as 0. */
  predicate JsGreater(a: Option<real>, b: Option<real>)
  {
    (if a.Some? then a.value else 0.0) > (if b.Some? then b.value else 0.0)
  }

  function Sma7Trend(ind: IndicatorsBody): (t: Trend)
    ensures t == Up <==> JsGreater(ind.sma7, ind.sma25)
  {
    if JsGreater(ind.sma7, ind.sma25) then Up else Down
  }

  function Sma25Trend(ind: IndicatorsBody): (t: Trend)
    ensures t == Down <==> JsGreater(ind.sma25, ind.sma7)
  {
    if JsGreater(ind.sma25, ind.sma7) then Down else Up
  }

  /** The two arrows point the same way unless the averages are equal (a
      `null` counting as 0), when the SMA(7) arrow is down and the SMA(25)
      arrow up. */
  lemma TrendsDisagreeIffEqual(ind: IndicatorsBody)
    ensures Sma7Trend(ind) != Sma25Trend(ind) <==>
      (if ind.sma7.Some? then ind.sma7.value else 0.0) == (if ind.sma25.Some? then ind.sma25.value else 0.0)
    ensures Sma7Trend(ind) != Sma25Trend(ind) ==> Sma7Trend(ind) == Down && Sma25Trend(ind) == Up
  {
  }

  datatype Shown = NotAvailable | Dollars(value: real)

  /** `indicator.SMA_7 ? "$…" : "N/A"`: a missing or zero value is falsy. */
  function ShowSma(v: Option<real>): (s: Shown)
    ensures s == NotAvailable <==> v.None? || v.value == 0.0
    ensures s.Dollars? ==> s.value == v.value
  {
    if v.Some? && v.value != 0.0 then Dollars(v.value) else NotAvailable
  }

  class Charts {
    var chartData: map<string, seq<ChartCandle>>
    var indicators: map<string, IndicatorsBody>
    var loading: bool

    constructor ()
      ensures chartData == map[] && indicators == map[] && loading
    {
      chartData := map[];
      indicators := map[];
      loading := true;
    }

    /** `fetchData`: with no selection only loading ends and the old records
      stay; otherwise both records are replaced by what the requests
      returned. */
    method FetchData(selected: seq<string>, timeRange: string, base: string,
                     ohlc: string -> Fetched<seq<OhlcItem>>, ind: string -> Fetched<IndicatorsBody>,
                     timeLabel: string -> string)
      modifies this
      ensures !loading
      ensures selected == [] ==> chartData == old(chartData) && indicators == old(indicators)
      ensures selected != [] ==>
        chartData == ChartDataOf(selected, ohlc, base, timeRange, timeLabel) &&
        indicators == IndicatorsOf(selected, ind, base)
    {
      loading := true;
      if |selected| == 0 {
        loading := false;
        return;
      }
      var interval := Interval(timeRange);
      var newChartData: map<string, seq<ChartCandle>> := map[];
      var newIndicators: map<string, IndicatorsBody> := map[];
      for i := 0 to |selected|
        invariant newChartData == ChartDataOf(selected[..i], ohlc, base, timeRange, timeLabel)
        invariant newIndicators == IndicatorsOf(selected[..i], ind, base)
      {
        var symbol := selected[i];
        var ohlcData := GetOhlcData(ohlc, base, symbol, Some(interval), Some(timeRange));
        var indicatorsData := GetIndicators(ind, base, symbol);
        ChartDataStep(selected, i, ohlc, base, timeRange, timeLabel);
        IndicatorsStep(selected, i, ind, base);
        if ohlcData.Some? {
          newChartData := newChartData[symbol := TransformOhlc(ohlcData.value, timeLabel)];
        }
        if indicatorsData.Some? {
          newIndicators := newIndicators[symbol := indicatorsData.value];
        }
      }
      assert selected[..|selected|] == selected;
      chartData := newChartData;
      indicators := newIndicators;
      loading := false;
    }
  }
}
