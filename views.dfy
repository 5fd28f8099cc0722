/** What the REST views of backend/core/views.py share (the response, the
    `objects.get` lookup, the time windows), and the `price_history` and
    `indicators` views. The request's clock reading `now` is a parameter; a
    query parameter the request does not carry is `None`. */
module Views {
  import opened Common
  import opened Models

  const Hour: int := 3600
  const Day: int := 86400

  /** A DRF `Response`: a body with status 200, or an error status and the
      message of its error body. */
  datatype Response<T> = Ok(body: T) | Error(status: nat, message: string)

  const AssetNotFound: string := "Asset not found"
  /** An exception the view does not catch becomes Django's plain 500 page. */
  const ServerError: string := "Server Error (500)"

  /* ---------- `objects.get(...)` ---------- */

  /** The indices of the rows that satisfy `P`, in table order. */
  function IndicesWhere<T>(rows: seq<T>, P: T -> bool): (r: seq<nat>)
    ensures forall k :: k in r <==> 0 <= k < |rows| && P(rows[k])
    ensures forall i, j :: 0 <= i < j < |r| ==> r[i] < r[j]
  {
    if rows == [] then []
    else
      var n := |rows| - 1;
      var prev := IndicesWhere(rows[..n], P);
      assert forall i :: 0 <= i < |prev| ==> prev[i] in prev;
      if P(rows[n]) then prev + [n] else prev
  }

  /** The outcome of `Model.objects.get(...)`: one row, `DoesNotExist`, or
      `MultipleObjectsReturned`. */
  datatype Lookup = Found(pk: nat) | NotFound | MultipleFound

  function GetUnique<T>(rows: seq<T>, P: T -> bool): (r: Lookup)
    ensures r.NotFound? <==> forall k :: 0 <= k < |rows| ==> !P(rows[k])
    ensures r.Found? ==> r.pk < |rows| && P(rows[r.pk])
    ensures r.Found? ==> forall k :: 0 <= k < |rows| && P(rows[k]) ==> k == r.pk
    ensures r.MultipleFound? <==> exists i, j :: 0 <= i < j < |rows| && P(rows[i]) && P(rows[j])
  {
    var m := IndicesWhere(rows, P);
    if |m| == 0 then
      assert forall k :: 0 <= k < |rows| ==> !P(rows[k]) by {
        forall k | 0 <= k < |rows| ensures !P(rows[k]) { assert k !in m; }
      }
      NotFound
    else if |m| == 1 then
      assert m[0] in m;
      assert forall k :: 0 <= k < |rows| && P(rows[k]) ==> k == m[0] by {
        forall k | 0 <= k < |rows| && P(rows[k]) ensures k == m[0] { assert k in m; }
      }
      Found(m[0])
    else
      assert m[0] in m && m[1] in m;
      MultipleFound
  }

  /** `Asset.objects.get(symbol=symbol.upper())`. */
  function GetAssetBySymbol(assets: seq<Asset>, symbol: string): (r: Lookup)
    ensures r.NotFound? <==> forall k :: 0 <= k < |assets| ==> assets[k].symbol != Upper(symbol)
    ensures r.Found? ==> r.pk < |assets| && assets[r.pk].symbol == Upper(symbol)
    ensures r.Found? ==> forall k :: 0 <= k < |assets| && assets[k].symbol == Upper(symbol) ==> k == r.pk
    ensures r.MultipleFound? <==>
      exists i, j :: 0 <= i < j < |assets| && assets[i].symbol == Upper(symbol) && assets[j].symbol == Upper(symbol)
  {
    GetUnique(assets, (a: Asset) => a.symbol == Upper(symbol))
  }

  /** The symbol in the URL is matched whatever its case. */
  lemma SymbolLookupIgnoresCase(assets: seq<Asset>, symbol: string)
    ensures GetAssetBySymbol(assets, Upper(symbol)) == GetAssetBySymbol(assets, symbol)
  {
    UpperIdempotent(symbol);
  }

  /* ---------- time windows ---------- */

  /** The `ranges` table of `price_history`, as window lengths in seconds. */
  const PriceHistoryRanges: map<string, int> :=
    map["1h" := Hour, "6h" := 6 * Hour, "24h" := Day, "7d" := 7 * Day, "30d" := 30 * Day, "90d" := 90 * Day]

  /** The `ranges` table of `ohlc_data`. */
  const OhlcRanges: map<string, int> := map["1h" := Hour, "24h" := Day, "7d" := 7 * Day, "30d" := 30 * Day]

  /** The `range_deltas` table of `heatmap`. */
  const HeatmapRanges: map<string, int> := map["1h" := Hour, "24h" := Day, "7d" := 7 * Day]

  /** `request.GET.get("range", "24h")`. */
  function RangeName(rangeParam: Option<string>): string
  {
    if rangeParam.Some? then rangeParam.value else "24h"
  }

  /** `ranges.get(range_param, end - timedelta(days=1))`: an unknown range
      falls back to one day. */
  function WindowStart(ranges: map<string, int>, rangeParam: Option<string>, end: int): (start: int)
    ensures RangeName(rangeParam) in ranges ==> start == end - ranges[RangeName(rangeParam)]
    ensures RangeName(rangeParam) !in ranges ==> start == end - Day
  {
    var name := RangeName(rangeParam);
    if name in ranges then end - ranges[name] else end - Day
  }

  /** `PriceHistory.objects.filter(asset=pk, timestamp__range=[start, end])`. */
  function InWindow(prices: seq<PricePoint>, pk: nat, start: int, end: int): (r: seq<PricePoint>)
    ensures forall p :: p in r <==> p in prices && p.asset == pk && start <= p.timestamp <= end
    ensures |r| <= |prices|
  {
    if prices == [] then []
    else
      var n := |prices| - 1;
      assert prices == prices[..n] + [prices[n]];
      var prev := InWindow(prices[..n], pk, start, end);
      var p := prices[n];
      if p.asset == pk && start <= p.timestamp <= end then prev + [p] else prev
  }

  /* ---------- price_history ---------- */

  /** `GET /api/price-history/<symbol>/?range=`: the asset's points inside the
      window ending now, oldest first. */
  function PriceHistory(assets: seq<Asset>, prices: seq<PricePoint>, symbol: string, rangeParam: Option<string>, now: int)
    : (r: Response<seq<PricePoint>>)
    ensures GetAssetBySymbol(assets, symbol).NotFound? <==> r == Error(404, AssetNotFound)
    ensures GetAssetBySymbol(assets, symbol).MultipleFound? <==> r == Error(500, ServerError)
    ensures r.Ok? <==> GetAssetBySymbol(assets, symbol).Found?
    ensures r.Ok? ==> Ascending(r.body)
    ensures r.Ok? ==> forall p :: p in r.body <==>
      p in prices && p.asset == GetAssetBySymbol(assets, symbol).pk &&
      WindowStart(PriceHistoryRanges, rangeParam, now) <= p.timestamp <= now
  {
    match GetAssetBySymbol(assets, symbol)
    case NotFound => Error(404, AssetNotFound)
    case MultipleFound => Error(500, ServerError)
    case Found(pk) =>
      Ok(OrderByTimestamp(InWindow(prices, pk, WindowStart(PriceHistoryRanges, rangeParam, now), now)))
  }

  /** `[float(p.price_usd) for p in group]`. */
  function PriceValues(s: seq<PricePoint>): (r: seq<real>)
    ensures |r| == |s|
    ensures forall i :: 0 <= i < |s| ==> r[i] == s[i].priceUsd
  {
    seq(|s|, i requires 0 <= i < |s| => s[i].priceUsd)
  }

  /* ---------- indicators ---------- */

  function Sum(s: seq<real>): real
  {
    if s == [] then 0.0 else Sum(s[..|s| - 1]) + s[|s| - 1]
  }

  /** `sma(data, window)`: the mean of the last `window` values, `None` when
      there are fewer. */
  function Sma(data: seq<real>, window: nat): (r: Option<real>)
    requires window > 0
    ensures r.None? <==> |data| < window
    ensures r.Some? ==> r.value * (window as real) == Sum(data[|data| - window..])
  {
    if |data| < window then None else Some(Sum(data[|data| - window..]) / (window as real))
  }

  lemma {:induction false} SumBounds(s: seq<real>, lo: real, hi: real)
    requires forall i :: 0 <= i < |s| ==> lo <= s[i] <= hi
    ensures (|s| as real) * lo <= Sum(s) <= (|s| as real) * hi
  {
    if s != [] {
      SumBounds(s[..|s| - 1], lo, hi);
    }
  }

  /** A moving average lies between the lowest and the highest value of its window. */
  lemma SmaWithinWindow(data: seq<real>, window: nat, lo: real, hi: real)
    requires window > 0 && |data| >= window
    requires forall i :: |data| - window <= i < |data| ==> lo <= data[i] <= hi
    ensures lo <= Sma(data, window).value <= hi
  {
    var w := data[|data| - window..];
    var k := window as real;
    assert k * lo <= Sum(w) <= k * hi by {
      assert forall i :: 0 <= i < |w| ==> w[i] == data[|data| - window + i];
      SumBounds(w, lo, hi);
    }
    var m := Sma(data, window).value;
    assert m * k == Sum(w);
    ScaleBounds(m, k, lo, hi);
  }

  /** Dividing bounds by a positive factor keeps them. */
  lemma ScaleBounds(m: real, k: real, lo: real, hi: real)
    requires k > 0.0 && k * lo <= m * k <= k * hi
    ensures lo <= m <= hi
  {
  }

  /** `PriceHistory.objects.filter(asset=pk)`. */
  function PointsOf(prices: seq<PricePoint>, pk: nat): (r: seq<PricePoint>)
    ensures forall p :: p in r <==> p in prices && p.asset == pk
    ensures |r| <= |prices|
  {
    if prices == [] then []
    else
      var n := |prices| - 1;
      assert prices == prices[..n] + [prices[n]];
      PointsOf(prices[..n], pk) + (if prices[n].asset == pk then [prices[n]] else [])
  }

  datatype Indicators = Indicators(sma7: Option<real>, sma25: Option<real>)

  /** The asset's prices, oldest first: the prices of a rearrangement of the
      asset's points in which no point comes after a newer one. */
  function AssetSeries(prices: seq<PricePoint>, pk: nat): (r: seq<real>)
    ensures |r| == |PointsOf(prices, pk)|
    ensures exists s :: TimeOrderOf(s, PointsOf(prices, pk)) && r == PriceValues(s)
  {
    var s := OrderByTimestamp(PointsOf(prices, pk));
    assert TimeOrderOf(s, PointsOf(prices, pk));
    PriceValues(s)
  }

  /** `s` holds the points of `points`, each as often, oldest first. */
  predicate TimeOrderOf(s: seq<PricePoint>, points: seq<PricePoint>)
  {
    Ascending(s) && multiset(s) == multiset(points)
  }

  /** `GET /api/indicators/<symbol>/`: the 7- and 25-point moving averages of
      the asset's whole history, each absent while the history is shorter. */
  function IndicatorsView(assets: seq<Asset>, prices: seq<PricePoint>, symbol: string): (r: Response<Indicators>)
    ensures GetAssetBySymbol(assets, symbol).NotFound? <==> r == Error(404, AssetNotFound)
    ensures GetAssetBySymbol(assets, symbol).MultipleFound? <==> r == Error(500, ServerError)
    ensures r.Ok? <==> GetAssetBySymbol(assets, symbol).Found?
    ensures r.Ok? ==> (r.body.sma7.None? <==> |PointsOf(prices, GetAssetBySymbol(assets, symbol).pk)| < 7)
    ensures r.Ok? ==> (r.body.sma25.None? <==> |PointsOf(prices, GetAssetBySymbol(assets, symbol).pk)| < 25)
    ensures r.Ok? ==> var values := AssetSeries(prices, GetAssetBySymbol(assets, symbol).pk);
                      r.body == Indicators(Sma(values, 7), Sma(values, 25))
  {
    match GetAssetBySymbol(assets, symbol)
    case NotFound => Error(404, AssetNotFound)
    case MultipleFound => Error(500, ServerError)
    case Found(pk) =>
      var values := AssetSeries(prices, pk);
      Ok(Indicators(Sma(values, 7), Sma(values, 25)))
  }

  /** The SMA_7 or the SMA_25 field of a reply. */
  function Average(body: Indicators, window: nat): Option<real>
  {
    if window == 7 then body.sma7 else body.sma25
  }

  /** Each average is the mean of the asset's `window` newest prices: the
      points averaged are the last `window` of the asset's points put in time
      order, so no point left out is newer than a point averaged. */
  lemma IndicatorsAreNewestMeans(assets: seq<Asset>, prices: seq<PricePoint>, symbol: string, window: nat)
    requires window == 7 || window == 25
    requires GetAssetBySymbol(assets, symbol).Found?
    requires |PointsOf(prices, GetAssetBySymbol(assets, symbol).pk)| >= window
    ensures exists s: seq<PricePoint> ::
              (TimeOrderOf(s, PointsOf(prices, GetAssetBySymbol(assets, symbol).pk)) && |s| >= window &&
               (forall i, j :: 0 <= i < |s| - window <= j < |s| ==> s[i].timestamp <= s[j].timestamp) &&
               Average(IndicatorsView(assets, prices, symbol).body, window) ==
                 Some(Sum(PriceValues(s[|s| - window..])) / (window as real)))
  {
    var pk := GetAssetBySymbol(assets, symbol).pk;
    var points := PointsOf(prices, pk);
    var values := AssetSeries(prices, pk);
    var s: seq<PricePoint> :| TimeOrderOf(s, points) && values == PriceValues(s);
    var mean := Sum(PriceValues(s[|s| - window..])) / (window as real);
    assert Average(IndicatorsView(assets, prices, symbol).body, window) == Sma(values, window);
    SmaOfValues(s, window);
    assert forall i, j :: 0 <= i < |s| - window <= j < |s| ==> s[i].timestamp <= s[j].timestamp;
    assert TimeOrderOf(s, points) && |s| >= window &&
      Average(IndicatorsView(assets, prices, symbol).body, window) == Some(mean);
  }

  /** The average of the prices of `s` is that of its last `window` points. */
  lemma SmaOfValues(s: seq<PricePoint>, window: nat)
    requires 0 < window <= |s|
    ensures Sma(PriceValues(s), window) == Some(Sum(PriceValues(s[|s| - window..])) / (window as real))
  {
    assert PriceValues(s)[|s| - window..] == PriceValues(s[|s| - window..]);
  }

  /** When every stored price of the asset lies in `[lo, hi]`, so do both averages. */
  lemma IndicatorsBounded(assets: seq<Asset>, prices: seq<PricePoint>, symbol: string, lo: real, hi: real)
    requires GetAssetBySymbol(assets, symbol).Found?
    requires forall p | p in prices && p.asset == GetAssetBySymbol(assets, symbol).pk :: lo <= p.priceUsd <= hi
    ensures var r := IndicatorsView(assets, prices, symbol).body;
            (r.sma7.Some? ==> lo <= r.sma7.value <= hi) && (r.sma25.Some? ==> lo <= r.sma25.value <= hi)
  {
    var pk := GetAssetBySymbol(assets, symbol).pk;
    var ordered := OrderByTimestamp(PointsOf(prices, pk));
    var values := AssetSeries(prices, pk);
    forall i | 0 <= i < |values| ensures lo <= values[i] <= hi {
      assert ordered[i] in ordered;
    }
    if |values| >= 7 { SmaWithinWindow(values, 7, lo, hi); }
    if |values| >= 25 { SmaWithinWindow(values, 25, lo, hi); }
  }

}
