/** The fetch wrappers and the transforms of frontend/lib/api-service.ts.
    A request is an oracle `server` from the URL to what the fetch did;
    `Number.parseFloat` and the locale date and time labels are oracle
    functions too. */
module ApiService {
  import opened Common

  /** `process.env.NEXT_PUBLIC_API_URL || "http://localhost:8000/api"`. */
  const DefaultBaseUrl: string := "http://localhost:8000/api"

  function BaseUrl(env: Option<string>): (base: string)
    ensures env.Some? && env.value != "" ==> base == env.value
    ensures !(env.Some? && env.value != "") ==> base == DefaultBaseUrl
  {
    if env.Some? && env.value != "" then env.value else DefaultBaseUrl
  }

  /* ---------- URLs ---------- */

  function OrDefault(v: Option<string>, d: string): (s: string)
    ensures v.Some? ==> s == v.value
    ensures v.None? ==> s == d
  {
    if v.Some? then v.value else d
  }

  /** `${API_BASE_URL}/price-history/${symbol}/?range=${range}`, `range = "7d"`. */
  function PriceHistoryUrl(base: string, symbol: string, range: Option<string>): (url: string)
    ensures StartsWith(url, base + "/price-history/" + symbol + "/?range=")
    ensures url[|base + "/price-history/" + symbol + "/?range="|..] == OrDefault(range, "7d")
  {
    var u := base + "/price-history/" + symbol + "/?range=" + OrDefault(range, "7d");
    assert u[..|base + "/price-history/" + symbol + "/?range="|] == base + "/price-history/" + symbol + "/?range=";
    u
  }

  /** `${API_BASE_URL}/ohlc/${symbol}/?interval=${interval}&range=${range}`,
      `interval = "1h"`, `range = "24h"`. */
  function OhlcUrl(base: string, symbol: string, interval: Option<string>, range: Option<string>): (url: string)
    ensures StartsWith(url, base + "/ohlc/" + symbol + "/?interval=" + OrDefault(interval, "1h") + "&range=")
    ensures url[|base + "/ohlc/" + symbol + "/?interval=" + OrDefault(interval, "1h") + "&range="|..] == OrDefault(range, "24h")
  {
    var p := base + "/ohlc/" + symbol + "/?interval=" + OrDefault(interval, "1h") + "&range=";
    var u := p + OrDefault(range, "24h");
    assert u[..|p|] == p;
    u
  }

  /** `${API_BASE_URL}/heatmap/?range=${range}`, `range = "24h"`. */
  function HeatmapUrl(base: string, range: Option<string>): (url: string)
    ensures StartsWith(url, base + "/heatmap/?range=")
    ensures url[|base + "/heatmap/?range="|..] == OrDefault(range, "24h")
  {
    var u := base + "/heatmap/?range=" + OrDefault(range, "24h");
    assert u[..|base + "/heatmap/?range="|] == base + "/heatmap/?range=";
    u
  }

  /** `${API_BASE_URL}/indicators/${symbol}/`. */
  function IndicatorsUrl(base: string, symbol: string): (url: string)
    ensures |url| == |base + "/indicators/"| + |symbol| + 1
    ensures StartsWith(url, base + "/indicators/") && url[|url| - 1] == '/'
    ensures url[|base + "/indicators/"|..|url| - 1] == symbol
  {
    var u := base + "/indicators/" + symbol + "/";
    assert u[..|base + "/indicators/"|] == base + "/indicators/";
    assert u[|base + "/indicators/"|..|u| - 1] == symbol;
    u
  }

  /** For symbols without a '/', the price-history URL tells both the symbol
      and the range apart. */
  lemma PriceHistoryUrlInjective(base: string, s1: string, r1: Option<string>, s2: string, r2: Option<string>)
    requires '/' !in s1 && '/' !in s2
    requires PriceHistoryUrl(base, s1, r1) == PriceHistoryUrl(base, s2, r2)
    ensures s1 == s2 && OrDefault(r1, "7d") == OrDefault(r2, "7d")
  {
    var p := base + "/price-history/";
    var a1, a2 := "?range=" + OrDefault(r1, "7d"), "?range=" + OrDefault(r2, "7d");
    PriceHistoryUrlParts(base, s1, r1);
    PriceHistoryUrlParts(base, s2, r2);
    assert s1 + "/" + a1 == s2 + "/" + a2 by {
      assert s1 + "/" + a1 == (p + (s1 + "/" + a1))[|p|..];
      assert s2 + "/" + a2 == (p + (s2 + "/" + a2))[|p|..];
    }
    SplitAtFirst(s1, a1, s2, a2, '/');
    assert OrDefault(r1, "7d") == a1[7..];
    assert OrDefault(r2, "7d") == a2[7..];
  }

  lemma PriceHistoryUrlParts(base: string, s: string, r: Option<string>)
    ensures PriceHistoryUrl(base, s, r) == (base + "/price-history/") + (s + "/" + ("?range=" + OrDefault(r, "7d")))
  {
  }

  /** Two strings that each have their first `c` right after a run without
      `c` split there the same way. */
  lemma SplitAtFirst(s1: string, a1: string, s2: string, a2: string, c: char)
    requires c !in s1 && c !in s2
    requires s1 + [c] + a1 == s2 + [c] + a2
    ensures s1 == s2 && a1 == a2
  {
    var t1, t2 := s1 + [c] + a1, s2 + [c] + a2;
    assert forall k :: 0 <= k < |s1| ==> t1[k] == s1[k];
    assert forall k :: 0 <= k < |s2| ==> t2[k] == s2[k];
    RunBeforeIndex(t1, c, |s1|);
    RunBeforeIndex(t2, c, |s2|);
    assert s1 == t1[..|s1|] && s2 == t2[..|s2|];
    assert a1 == t1[|s1| + 1..] && a2 == t2[|s2| + 1..];
  }

  /** The first `c` is at `i` when `s[i]` is `c` and nothing before it is. */
  lemma {:induction false} RunBeforeIndex(s: string, c: char, i: nat)
    requires i < |s| && s[i] == c
    requires forall k :: 0 <= k < i ==> s[k] != c
    ensures IndexOf(s, c) == i
  {
    if i > 0 {
      RunBeforeIndex(s[1..], c, i - 1);
    }
  }

  /* ---------- the null-on-failure getters ---------- */

  /** What `fetch` and `response.json()` did. */
  datatype Fetched<T> = Threw | NotOk | Body(value: T)

  /** The shared `try`/`catch`: the parsed body, or `null` when the request
      threw, the status was not OK, or the body did not parse. */
  function Settle<T>(f: Fetched<T>): (r: Option<T>)
    ensures r.Some? <==> f.Body?
    ensures r.Some? ==> r.value == f.value
  {
    if f.Body? then Some(f.value) else None
  }

  datatype PriceHistoryItem = PriceHistoryItem(
    symbol: string, name: string, priceUsd: string, volume24h: string, marketCap: string,
    change1h: real, change24h: real, change7d: real, timestamp: string)

  datatype OhlcItem = OhlcItem(timestamp: string, open: real, close: real, low: real, high: real)

  datatype HeatmapItem = HeatmapItem(
    symbol: string, name: string, price: real,
    percentChange1h: real, percentChange24h: real, percentChange7d: real, marketCap: real)

  /** The JSON object of the heatmap view, as its entries in key order. */
  type HeatmapBody = seq<(string, HeatmapItem)>

  /** The body of the indicators view; JSON `null` is `None`. */
  datatype IndicatorsBody = IndicatorsBody(sma7: Option<real>, sma25: Option<real>)

  function GetPriceHistory(server: string -> Fetched<seq<PriceHistoryItem>>, base: string, symbol: string, range: Option<string>)
    : (r: Option<seq<PriceHistoryItem>>)
    ensures var f := server(PriceHistoryUrl(base, symbol, range)); (r.Some? <==> f.Body?) && (r.Some? ==> r.value == f.value)
  {
    Settle(server(PriceHistoryUrl(base, symbol, range)))
  }

  function GetOhlcData(server: string -> Fetched<seq<OhlcItem>>, base: string, symbol: string,
                       interval: Option<string>, range: Option<string>): (r: Option<seq<OhlcItem>>)
    ensures var f := server(OhlcUrl(base, symbol, interval, range)); (r.Some? <==> f.Body?) && (r.Some? ==> r.value == f.value)
  {
    Settle(server(OhlcUrl(base, symbol, interval, range)))
  }

  function GetHeatmapData(server: string -> Fetched<HeatmapBody>, base: string, range: Option<string>): (r: Option<HeatmapBody>)
    ensures var f := server(HeatmapUrl(base, range)); (r.Some? <==> f.Body?) && (r.Some? ==> r.value == f.value)
  {
    Settle(server(HeatmapUrl(base, range)))
  }

  function GetIndicators(server: string -> Fetched<IndicatorsBody>, base: string, symbol: string): (r: Option<IndicatorsBody>)
    ensures var f := server(IndicatorsUrl(base, symbol)); (r.Some? <==> f.Body?) && (r.Some? ==> r.value == f.value)
  {
    Settle(server(IndicatorsUrl(base, symbol)))
  }

  /* ---------- transforms ---------- */

  datatype PricePoint = PricePoint(time: string, price: real, volume: real, change24h: real)

  /** `transformPriceHistoryToChart`. */
  function TransformPriceHistory(data: seq<PriceHistoryItem>, parseFloat: string -> real, dateLabel: string -> string)
    : (r: seq<PricePoint>)
    ensures |r| == |data|
    ensures forall i :: 0 <= i < |data| ==>
      r[i] == PricePoint(dateLabel(data[i].timestamp), parseFloat(data[i].priceUsd),
                         parseFloat(data[i].volume24h), data[i].change24h)
  {
    seq(|data|, i requires 0 <= i < |data| =>
      PricePoint(dateLabel(data[i].timestamp), parseFloat(data[i].priceUsd),
                 parseFloat(data[i].volume24h), data[i].change24h))
  }

  /** A point of the candlestick chart; it carries no volume. */
  datatype ChartCandle = ChartCandle(time: string, open: real, high: real, low: real, close: real, timestamp: string)

  /** `transformOHLCToChart`. */
  function TransformOhlc(data: seq<OhlcItem>, timeLabel: string -> string): (r: seq<ChartCandle>)
    ensures |r| == |data|
    ensures forall i :: 0 <= i < |data| ==>
      r[i].timestamp == data[i].timestamp && r[i].time == timeLabel(data[i].timestamp) &&
      r[i].open == data[i].open && r[i].high == data[i].high &&
      r[i].low == data[i].low && r[i].close == data[i].close
  {
    seq(|data|, i requires 0 <= i < |data| =>
      ChartCandle(timeLabel(data[i].timestamp), data[i].open, data[i].high, data[i].low, data[i].close, data[i].timestamp))
  }

  datatype HeatmapTile = HeatmapTile(
    symbol: string, name: string, price: real, change24h: real, change1h: real, change7d: real, marketCap: real)

  /** `transformHeatmapData`: one tile per entry, in entry order. */
  function TransformHeatmap(data: HeatmapBody): (r: seq<HeatmapTile>)
    ensures |r| == |data|
    ensures forall i :: 0 <= i < |data| ==> var item := data[i].1;
      r[i] == HeatmapTile(item.symbol, item.name, item.price, item.percentChange24h,
                          item.percentChange1h, item.percentChange7d, item.marketCap)
  {
    seq(|data|, i requires 0 <= i < |data| =>
      var item := data[i].1;
      HeatmapTile(item.symbol, item.name, item.price, item.percentChange24h,
                  item.percentChange1h, item.percentChange7d, item.marketCap))
  }

  /** The transforms work element by element: they commute with concatenation. */
  lemma TransformsDistribute(p1: seq<PriceHistoryItem>, p2: seq<PriceHistoryItem>, a: seq<OhlcItem>, b: seq<OhlcItem>,
                             h1: HeatmapBody, h2: HeatmapBody,
                             parseFloat: string -> real, dateLabel: string -> string, timeLabel: string -> string)
    ensures TransformPriceHistory(p1 + p2, parseFloat, dateLabel) ==
            TransformPriceHistory(p1, parseFloat, dateLabel) + TransformPriceHistory(p2, parseFloat, dateLabel)
    ensures TransformOhlc(a + b, timeLabel) == TransformOhlc(a, timeLabel) + TransformOhlc(b, timeLabel)
    ensures TransformHeatmap(h1 + h2) == TransformHeatmap(h1) + TransformHeatmap(h2)
  {
    assert forall i :: 0 <= i < |p1 + p2| ==>
      TransformPriceHistory(p1 + p2, parseFloat, dateLabel)[i] ==
      (TransformPriceHistory(p1, parseFloat, dateLabel) + TransformPriceHistory(p2, parseFloat, dateLabel))[i] by {
      forall i | 0 <= i < |p1 + p2|
        ensures TransformPriceHistory(p1 + p2, parseFloat, dateLabel)[i] ==
                (TransformPriceHistory(p1, parseFloat, dateLabel) + TransformPriceHistory(p2, parseFloat, dateLabel))[i]
      {
        if i >= |p1| { assert (p1 + p2)[i] == p2[i - |p1|]; }
      }
    }
    assert forall i :: 0 <= i < |a + b| ==>
      TransformOhlc(a + b, timeLabel)[i] == (TransformOhlc(a, timeLabel) + TransformOhlc(b, timeLabel))[i] by {
      forall i | 0 <= i < |a + b|
        ensures TransformOhlc(a + b, timeLabel)[i] == (TransformOhlc(a, timeLabel) + TransformOhlc(b, timeLabel))[i]
      {
        if i >= |a| { assert (a + b)[i] == b[i - |a|]; }
      }
    }
    assert forall i :: 0 <= i < |h1 + h2| ==>
      TransformHeatmap(h1 + h2)[i] == (TransformHeatmap(h1) + TransformHeatmap(h2))[i] by {
      forall i | 0 <= i < |h1 + h2|
        ensures TransformHeatmap(h1 + h2)[i] == (TransformHeatmap(h1) + TransformHeatmap(h2))[i]
      {
        if i >= |h1| { assert (h1 + h2)[i] == h2[i - |h1|]; }
      }
    }
  }
}
