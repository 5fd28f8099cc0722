/** The `heatmap` view of backend/core/views.py: the latest point of every
    asset with a point in the window, keyed by symbol. */
module Heatmap {
  import opened Common
  import opened Models
  import opened Views

  /** `p` is the newest point of its asset at or after `start`: the row the
      `Max('timestamp')` annotation picks for that asset. */
  predicate IsLatest(prices: seq<PricePoint>, p: PricePoint, start: int)
  {
    p in prices && start <= p.timestamp &&
    forall q | q in prices && q.asset == p.asset && start <= q.timestamp :: q.timestamp <= p.timestamp
  }

  /** The rows of `rows`, in order, that are the latest of their asset in `prices`. */
  function LatestRows(rows: seq<PricePoint>, prices: seq<PricePoint>, start: int): (r: seq<PricePoint>)
    ensures forall p :: p in r <==> p in rows && IsLatest(prices, p, start)
  {
    if rows == [] then []
    else
      var n := |rows| - 1;
      assert rows == rows[..n] + [rows[n]];
      LatestRows(rows[..n], prices, start) + (if IsLatest(prices, rows[n], start) then [rows[n]] else [])
  }

  /** The newest point of asset `a` in `s` at or after `start`, if any. */
  function NewestOf(s: seq<PricePoint>, a: nat, start: int): (r: Option<PricePoint>)
    ensures r.None? <==> forall q | q in s :: q.asset != a || q.timestamp < start
    ensures r.Some? ==> r.value in s && r.value.asset == a && start <= r.value.timestamp
    ensures r.Some? ==> forall q | q in s && q.asset == a && start <= q.timestamp :: q.timestamp <= r.value.timestamp
  {
    if s == [] then None
    else
      var n := |s| - 1;
      assert s == s[..n] + [s[n]];
      var prev := NewestOf(s[..n], a, start);
      var p := s[n];
      if p.asset != a || p.timestamp < start then prev
      else if prev.Some? && p.timestamp <= prev.value.timestamp then prev
      else Some(p)
  }

  /** Every asset with a point in the window has a latest point. */
  lemma LatestExists(prices: seq<PricePoint>, q: PricePoint, start: int)
    requires q in prices && start <= q.timestamp
    ensures exists p :: IsLatest(prices, p, start) && p.asset == q.asset
  {
    var p := NewestOf(prices, q.asset, start).value;
    assert IsLatest(prices, p, start);
  }

  datatype HeatmapItem = HeatmapItem(
    symbol: string, name: string, price: real,
    percentChange1h: Option<real>, percentChange24h: Option<real>, percentChange7d: Option<real>,
    marketCap: real)

  function Item(assets: seq<Asset>, p: PricePoint): (it: HeatmapItem)
    requires p.asset < |assets|
    ensures it.symbol == assets[p.asset].symbol && it.name == assets[p.asset].name
    ensures it.price == p.priceUsd && it.marketCap == p.marketCap
    ensures it.percentChange1h == p.change1h && it.percentChange24h == p.change24h && it.percentChange7d == p.change7d
  {
    var a := assets[p.asset];
    HeatmapItem(a.symbol, a.name, p.priceUsd, p.change1h, p.change24h, p.change7d, p.marketCap)
  }

  /** The symbols of the assets the rows refer to. */
  function SymbolsOf(rows: seq<PricePoint>, assets: seq<Asset>): set<string>
    requires PointsReferTo(rows, |assets|)
  {
    set i | 0 <= i < |rows| :: assets[rows[i].asset].symbol
  }

  /** The `data` dictionary after `data[p.asset.symbol] = {...}` for each row
      in turn: one entry per symbol of the rows. */
  function Collect(rows: seq<PricePoint>, assets: seq<Asset>): map<string, HeatmapItem>
    requires PointsReferTo(rows, |assets|)
  {
    if rows == [] then map[]
    else
      var n := |rows| - 1;
      var p := rows[n];
      assert forall i :: 0 <= i < n ==> rows[..n][i] == rows[i];
      Collect(rows[..n], assets)[assets[p.asset].symbol := Item(assets, p)]
  }

  /** `data` has one entry per symbol of the rows and no other. */
  lemma {:induction false} CollectKeys(rows: seq<PricePoint>, assets: seq<Asset>)
    requires PointsReferTo(rows, |assets|)
    ensures Collect(rows, assets).Keys == SymbolsOf(rows, assets)
  {
    if rows != [] {
      var n := |rows| - 1;
      var p := rows[n];
      assert forall i :: 0 <= i < n ==> rows[..n][i] == rows[i];
      CollectKeys(rows[..n], assets);
      assert SymbolsOf(rows, assets) == SymbolsOf(rows[..n], assets) + {assets[p.asset].symbol};
    }
  }

  /** Each entry was written by the last row carrying its symbol. */
  lemma {:induction false} CollectLastWins(rows: seq<PricePoint>, assets: seq<Asset>, s: string) returns (i: nat)
    requires PointsReferTo(rows, |assets|) && s in Collect(rows, assets)
    ensures i < |rows| && assets[rows[i].asset].symbol == s
    ensures Collect(rows, assets)[s] == Item(assets, rows[i])
    ensures forall j :: i < j < |rows| ==> assets[rows[j].asset].symbol != s
  {
    var n := |rows| - 1;
    var p := rows[n];
    assert forall k :: 0 <= k < n ==> rows[..n][k] == rows[k];
    if assets[p.asset].symbol == s {
      i := n;
    } else {
      assert s in Collect(rows[..n], assets);
      i := CollectLastWins(rows[..n], assets, s);
    }
  }

  /** A point of the rows carries one of their symbols. */
  lemma {:induction false} SymbolOfMember(rows: seq<PricePoint>, assets: seq<Asset>, p: PricePoint)
    requires PointsReferTo(rows, |assets|) && p in rows
    ensures p.asset < |assets| && assets[p.asset].symbol in SymbolsOf(rows, assets)
  {
    var n := |rows| - 1;
    if rows[n] != p {
      assert rows == rows[..n] + [rows[n]];
      assert forall k :: 0 <= k < n ==> rows[..n][k] == rows[k];
      SymbolOfMember(rows[..n], assets, p);
      assert SymbolsOf(rows[..n], assets) <= SymbolsOf(rows, assets);
    }
  }

  lemma ReferToSubset(rows: seq<PricePoint>, prices: seq<PricePoint>, n: nat)
    requires forall p | p in rows :: p in prices
    requires PointsReferTo(prices, n)
    ensures PointsReferTo(rows, n)
  {
    forall i | 0 <= i < |rows| ensures rows[i].asset < n {
      assert rows[i] in rows;
    }
  }

  /** The rows the heat map lists, in the default `-timestamp` order: the
      latest point of every asset that has one in the window. */
  function HeatmapRows(prices: seq<PricePoint>, start: int): seq<PricePoint>
  {
    DefaultOrdering(LatestRows(prices, prices, start))
  }

  lemma HeatmapRowsAreLatest(prices: seq<PricePoint>, start: int, p: PricePoint)
    ensures p in HeatmapRows(prices, start) <==> IsLatest(prices, p, start)
  {
    assert p in LatestRows(prices, prices, start) <==> IsLatest(prices, p, start);
  }

  lemma HeatmapRowsDescending(prices: seq<PricePoint>, start: int)
    ensures Descending(HeatmapRows(prices, start))
  {
  }

  lemma HeatmapRowsReferTo(prices: seq<PricePoint>, start: int, n: nat)
    requires PointsReferTo(prices, n)
    ensures PointsReferTo(HeatmapRows(prices, start), n)
  {
    var rows := HeatmapRows(prices, start);
    forall p | p in rows ensures p in prices {
      HeatmapRowsAreLatest(prices, start, p);
    }
    ReferToSubset(rows, prices, n);
  }

  /** The rows `PriceHistory.objects.filter(query)` returns as written: when no
      point is in the window the OR of no terms is the empty `Q()`, which
      matches every row. */
  function HeatmapRowsAsWritten(prices: seq<PricePoint>, start: int): (r: seq<PricePoint>)
    ensures (forall i :: 0 <= i < |prices| ==> prices[i].timestamp < start) ==> forall p :: p in r <==> p in prices
    ensures (exists i :: 0 <= i < |prices| && start <= prices[i].timestamp) ==> r == HeatmapRows(prices, start)
  {
    if forall i :: 0 <= i < |prices| ==> prices[i].timestamp < start then DefaultOrdering(prices)
    else HeatmapRows(prices, start)
  }

  lemma HeatmapRowsAsWrittenReferTo(prices: seq<PricePoint>, start: int, n: nat)
    requires PointsReferTo(prices, n)
    ensures PointsReferTo(HeatmapRowsAsWritten(prices, start), n)
  {
    if !(forall i :: 0 <= i < |prices| ==> prices[i].timestamp < start) {
      HeatmapRowsReferTo(prices, start, n);
    } else {
      ReferToSubset(HeatmapRowsAsWritten(prices, start), prices, n);
    }
  }

  /** The `data` dictionary the code as written builds for the window starting at `start`. */
  function HeatmapDataAsWritten(assets: seq<Asset>, prices: seq<PricePoint>, start: int): map<string, HeatmapItem>
    requires PointsReferTo(prices, |assets|)
  {
    var rows := HeatmapRowsAsWritten(prices, start);
    HeatmapRowsAsWrittenReferTo(prices, start, |assets|);
    Collect(rows, assets)
  }

  /** The `data` dictionary built from the latest points of the window starting at `start`. */
  function HeatmapData(assets: seq<Asset>, prices: seq<PricePoint>, start: int): map<string, HeatmapItem>
    requires PointsReferTo(prices, |assets|)
  {
    var rows := HeatmapRows(prices, start);
    HeatmapRowsReferTo(prices, start, |assets|);
    Collect(rows, assets)
  }

  const InvalidRange: string := "Invalid range"

  /** `GET /api/heatmap/?range=` as written, with the empty-window case above. */
  function HeatmapAsWritten(assets: seq<Asset>, prices: seq<PricePoint>, rangeParam: Option<string>, now: int)
    : (r: Response<map<string, HeatmapItem>>)
    requires PointsReferTo(prices, |assets|)
    ensures RangeName(rangeParam) !in HeatmapRanges <==> r == Error(400, InvalidRange)
  {
    var name := RangeName(rangeParam);
    if name !in HeatmapRanges then Error(400, InvalidRange)
    else Ok(HeatmapDataAsWritten(assets, prices, now - HeatmapRanges[name]))
  }

  /** `GET /api/heatmap/?range=`: for every symbol with a point in the window,
      the latest such point. */
  function Heatmap(assets: seq<Asset>, prices: seq<PricePoint>, rangeParam: Option<string>, now: int)
    : (r: Response<map<string, HeatmapItem>>)
    requires PointsReferTo(prices, |assets|)
    ensures RangeName(rangeParam) !in HeatmapRanges <==> r == Error(400, InvalidRange)
  {
    var name := RangeName(rangeParam);
    if name !in HeatmapRanges then Error(400, InvalidRange)
    else Ok(HeatmapData(assets, prices, now - HeatmapRanges[name]))
  }

  /** Some asset with symbol `s` has a point at or after `start`. */
  predicate HasPointInWindow(assets: seq<Asset>, prices: seq<PricePoint>, start: int, s: string)
    requires PointsReferTo(prices, |assets|)
  {
    exists i :: 0 <= i < |prices| && start <= prices[i].timestamp && assets[prices[i].asset].symbol == s
  }

  /** The latest rows carry exactly the symbols that have a point in the window. */
  lemma LatestRowsSymbols(assets: seq<Asset>, prices: seq<PricePoint>, start: int, s: string)
    requires PointsReferTo(prices, |assets|)
    requires PointsReferTo(HeatmapRows(prices, start), |assets|)
    ensures s in SymbolsOf(HeatmapRows(prices, start), assets) <==> HasPointInWindow(assets, prices, start, s)
  {
    var rows := HeatmapRows(prices, start);
    if s in SymbolsOf(rows, assets) {
      var j :| 0 <= j < |rows| && assets[rows[j].asset].symbol == s;
      assert rows[j] in rows;
      HeatmapRowsAreLatest(prices, start, rows[j]);
      var k :| 0 <= k < |prices| && prices[k] == rows[j];
      assert start <= prices[k].timestamp && assets[prices[k].asset].symbol == s;
    }
    if HasPointInWindow(assets, prices, start, s) {
      var i :| 0 <= i < |prices| && start <= prices[i].timestamp && assets[prices[i].asset].symbol == s;
      LatestExists(prices, prices[i], start);
      var p :| IsLatest(prices, p, start) && p.asset == prices[i].asset;
      HeatmapRowsAreLatest(prices, start, p);
      SymbolOfMember(rows, assets, p);
    }
  }

  /** The heat map has an entry for a symbol exactly when some asset with that
      symbol has a point in the window. */
  lemma HeatmapKeys(assets: seq<Asset>, prices: seq<PricePoint>, start: int, s: string)
    requires PointsReferTo(prices, |assets|)
    ensures s in HeatmapData(assets, prices, start) <==> HasPointInWindow(assets, prices, start, s)
  {
    var rows := HeatmapRows(prices, start);
    HeatmapRowsReferTo(prices, start, |assets|);
    CollectKeys(rows, assets);
    assert HeatmapData(assets, prices, start).Keys == SymbolsOf(rows, assets);
    LatestRowsSymbols(assets, prices, start, s);
  }

  /** Each entry is the latest point in the window of an asset with that
      symbol (of the one listed last, when several share it). */
  lemma HeatmapValue(assets: seq<Asset>, prices: seq<PricePoint>, start: int, s: string) returns (p: PricePoint)
    requires PointsReferTo(prices, |assets|)
    requires s in HeatmapData(assets, prices, start)
    ensures IsLatest(prices, p, start) && p.asset < |assets| && assets[p.asset].symbol == s
    ensures HeatmapData(assets, prices, start)[s] == Item(assets, p)
  {
    var rows := HeatmapRows(prices, start);
    HeatmapRowsReferTo(prices, start, |assets|);
    assert HeatmapData(assets, prices, start) == Collect(rows, assets);
    var i := CollectLastWins(rows, assets, s);
    p := rows[i];
    assert p in rows;
    HeatmapRowsAreLatest(prices, start, p);
  }

  /** When no point is in the window the code as written lists every stored
      row (the oldest of each symbol wins) where an empty map is intended. */
  lemma StaleFeedFillsHeatmap(assets: seq<Asset>, prices: seq<PricePoint>, start: int)
    requires PointsReferTo(prices, |assets|)
    requires prices != []
    requires forall i :: 0 <= i < |prices| ==> prices[i].timestamp < start
    ensures HeatmapData(assets, prices, start) == map[]
    ensures assets[prices[0].asset].symbol in HeatmapDataAsWritten(assets, prices, start)
  {
    var latest := HeatmapRows(prices, start);
    if latest != [] {
      assert latest[0] in latest;
      HeatmapRowsAreLatest(prices, start, latest[0]);
      assert false;
    }
    var rows := HeatmapRowsAsWritten(prices, start);
    HeatmapRowsAsWrittenReferTo(prices, start, |assets|);
    assert prices[0] in rows;
    SymbolOfMember(rows, assets, prices[0]);
    CollectKeys(rows, assets);
  }

  /** Whenever some point is in the window, the code as written and the
      corrected heat map agree. */
  lemma AsWrittenAgreesWhenFresh(assets: seq<Asset>, prices: seq<PricePoint>, start: int)
    requires PointsReferTo(prices, |assets|)
    requires exists i :: 0 <= i < |prices| && start <= prices[i].timestamp
    ensures HeatmapDataAsWritten(assets, prices, start) == HeatmapData(assets, prices, start)
  {
    assert HeatmapRowsAsWritten(prices, start) == HeatmapRows(prices, start);
  }

  /** The loop of `heatmap`: one pass over the rows, writing each into `data`. */
  method CollectRows(rows: seq<PricePoint>, assets: seq<Asset>) returns (data: map<string, HeatmapItem>)
    requires PointsReferTo(rows, |assets|)
    ensures data == Collect(rows, assets)
  {
    data := map[];
    var i := 0;
    while i < |rows|
      invariant 0 <= i <= |rows|
      invariant PointsReferTo(rows[..i], |assets|)
      invariant data == Collect(rows[..i], assets)
    {
      var p := rows[i];
      assert rows[..i + 1][..i] == rows[..i];
      data := data[assets[p.asset].symbol := Item(assets, p)];
      i := i + 1;
    }
    assert rows[..|rows|] == rows;
  }

  /** The body of `heatmap` past the range check (whose outcome `Heatmap`
      states): the query for the latest rows of the window, then the loop. */
  method WindowData(assets: seq<Asset>, prices: seq<PricePoint>, start: int) returns (data: map<string, HeatmapItem>)
    requires PointsReferTo(prices, |assets|)
    ensures data == HeatmapData(assets, prices, start)
  {
    var rows := HeatmapRows(prices, start);
    HeatmapRowsReferTo(prices, start, |assets|);
    data := CollectRows(rows, assets);
  }
}
