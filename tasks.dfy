/** The periodic price feed of the back end (`fetch_crypto_prices`,
    backend/core/tasks.py): for every coin of the CoinGecko market list it
    upserts the Asset row keyed by `coingecko_id`, then adds a PriceHistory
    point for (asset, last_updated) unless one exists. The HTTP call and
    `parse_datetime` are oracles: the method receives their outcomes. */
module Tasks {
  import opened Common
  import opened Models

  /** A member of a JSON object: key missing, explicit `null`, or a value. */
  datatype Field<T> = Absent | Null | Val(v: T)

  /** One element of the upstream JSON list. `parsedTime` is what
      `parse_datetime(coin["last_updated"])` gives; `None` stands for a missing
      or null key (the call raises) and for an unparseable string (it returns
      None): the loop treats all three alike. */
  datatype Coin = Coin(
    id: Field<string>, symbol: Field<string>, name: Field<string>,
    parsedTime: Option<int>,
    currentPrice: Field<real>, totalVolume: Field<real>, marketCap: Field<real>,
    change1h: Field<real>, change24h: Field<real>, change7d: Field<real>)

  /** The outcome of `requests.get(...)`, `raise_for_status()` and `.json()`. */
  datatype Upstream = RequestFailed(reason: string) | Received(coins: seq<Coin>)

  /* ---------- specification ---------- */

  /** The first row whose `coingecko_id` is `id`. */
  function FindAsset(assets: seq<Asset>, id: string): (r: Option<nat>)
    ensures r.Some? ==> r.value < |assets| && assets[r.value].coingeckoId == id
    ensures r.Some? ==> forall j :: 0 <= j < r.value ==> assets[j].coingeckoId != id
    ensures r.None? ==> forall j :: 0 <= j < |assets| ==> assets[j].coingeckoId != id
  {
    if assets == [] then None
    else if assets[|assets| - 1].coingeckoId == id && FindAsset(assets[..|assets| - 1], id).None?
    then Some(|assets| - 1)
    else FindAsset(assets[..|assets| - 1], id)
  }

  /** `Asset.objects.update_or_create(coingecko_id=id, defaults={symbol, name})`:
      the new table and the primary key of the row. */
  function UpsertAsset(assets: seq<Asset>, id: string, symbol: string, name: string): (r: (seq<Asset>, nat))
    ensures r.1 < |r.0| && r.0[r.1] == Asset(id, Upper(symbol), name)
    ensures FindAsset(assets, id).Some? ==>
      r.1 == FindAsset(assets, id).value && r.0 == assets[r.1 := Asset(id, Upper(symbol), name)]
    ensures FindAsset(assets, id).None? ==> r.1 == |assets| && r.0 == assets + [Asset(id, Upper(symbol), name)]
    ensures CoingeckoIdsUnique(assets) ==> CoingeckoIdsUnique(r.0)
  {
    var row := Asset(id, Upper(symbol), name);
    match FindAsset(assets, id)
    case Some(k) => (assets[k := row], k)
    case None => (assets + [row], |assets|)
  }

  /** The first point recorded for (asset, timestamp). */
  function FindPoint(prices: seq<PricePoint>, asset: nat, t: int): (r: Option<nat>)
    ensures r.Some? ==> r.value < |prices| && prices[r.value].asset == asset && prices[r.value].timestamp == t
    ensures r.None? ==> forall j :: 0 <= j < |prices| ==> prices[j].asset != asset || prices[j].timestamp != t
  {
    if prices == [] then None
    else if prices[|prices| - 1].asset == asset && prices[|prices| - 1].timestamp == t
    then Some(|prices| - 1)
    else FindPoint(prices[..|prices| - 1], asset, t)
  }

  /** `coin.get(key) or 0`: a missing, null or zero change is stored as 0. */
  function ChangeOrZero(f: Field<real>): (r: real)
    ensures f.Val? ==> r == f.v
    ensures !f.Val? ==> r == 0.0
  {
    match f
    case Val(v) => v
    case _ => 0.0
  }

  /** The row that `get_or_create` inserts from the coin's `defaults`. */
  function NewPoint(asset: nat, t: int, coin: Coin): PricePoint
    requires coin.currentPrice.Val? && coin.totalVolume.Val? && coin.marketCap.Val?
  {
    PricePoint(asset, coin.currentPrice.v, coin.totalVolume.v, coin.marketCap.v,
      Some(ChangeOrZero(coin.change1h)), Some(ChangeOrZero(coin.change24h)),
      Some(ChangeOrZero(coin.change7d)), t)
  }

  /** `PriceHistory.objects.get_or_create(asset, timestamp, defaults)`. `None` is a
      raised exception: the `defaults` dict is built before the lookup, so a
      missing price key raises even when the point exists; a null price only
      fails when a row would be inserted (the column is NOT NULL). */
  function GetOrCreatePoint(prices: seq<PricePoint>, asset: nat, t: int, coin: Coin): (r: Option<seq<PricePoint>>)
    ensures r.Some? && FindPoint(prices, asset, t).Some? ==> r.value == prices
    ensures r.Some? && FindPoint(prices, asset, t).None? ==>
      coin.currentPrice.Val? && coin.totalVolume.Val? && coin.marketCap.Val? &&
      r.value == prices + [NewPoint(asset, t, coin)]
    ensures r.None? <==>
      coin.currentPrice.Absent? || coin.totalVolume.Absent? || coin.marketCap.Absent? ||
      (FindPoint(prices, asset, t).None? && !(coin.currentPrice.Val? && coin.totalVolume.Val? && coin.marketCap.Val?))
  {
    if coin.currentPrice.Absent? || coin.totalVolume.Absent? || coin.marketCap.Absent? then None
    else if FindPoint(prices, asset, t).Some? then Some(prices)
    else if coin.currentPrice.Val? && coin.totalVolume.Val? && coin.marketCap.Val?
    then Some(prices + [NewPoint(asset, t, coin)])
    else None
  }

  /** One pass of the loop body. A coin without a usable id, symbol or name
      raises before anything is written and leaves both tables alone; after the
      asset upsert, a missing timestamp or a failing price insert only skips the
      point. */
  function IngestCoin(assets: seq<Asset>, prices: seq<PricePoint>, coin: Coin): (r: (seq<Asset>, seq<PricePoint>))
    ensures !(coin.id.Val? && coin.symbol.Val? && coin.name.Val?) ==> r == (assets, prices)
    ensures coin.id.Val? && coin.symbol.Val? && coin.name.Val? ==>
      r.0 == UpsertAsset(assets, coin.id.v, coin.symbol.v, coin.name.v).0
    ensures coin.parsedTime.None? ==> r.1 == prices
    ensures |r.0| >= |assets| && |r.1| >= |prices| && r.1[..|prices|] == prices
    ensures forall i :: 0 <= i < |assets| ==> r.0[i].coingeckoId == assets[i].coingeckoId
    ensures TablesValid(assets, prices) ==> TablesValid(r.0, r.1)
  {
    if !(coin.id.Val? && coin.symbol.Val? && coin.name.Val?) then (assets, prices)
    else
      var (assets', pk) := UpsertAsset(assets, coin.id.v, coin.symbol.v, coin.name.v);
      if coin.parsedTime.None? then (assets', prices)
      else
        match GetOrCreatePoint(prices, pk, coin.parsedTime.value, coin)
        case None => (assets', prices)
        case Some(prices') =>
          assert TablesValid(assets, prices) ==> PointsUnique(prices') by {
            if TablesValid(assets, prices) && FindPoint(prices, pk, coin.parsedTime.value).None? {
              assert prices' == prices + [NewPoint(pk, coin.parsedTime.value, coin)];
            }
          }
          (assets', prices')
  }

  /** The whole loop over a list of coins, in order. */
  function Ingest(assets: seq<Asset>, prices: seq<PricePoint>, coins: seq<Coin>): (r: (seq<Asset>, seq<PricePoint>))
    ensures |r.0| >= |assets| && |r.1| >= |prices| && r.1[..|prices|] == prices
    ensures forall i :: 0 <= i < |assets| ==> r.0[i].coingeckoId == assets[i].coingeckoId
    ensures TablesValid(assets, prices) ==> TablesValid(r.0, r.1)
    decreases |coins|
  {
    if coins == [] then (assets, prices)
    else
      var before := Ingest(assets, prices, coins[..|coins| - 1]);
      IngestCoin(before.0, before.1, coins[|coins| - 1])
  }

  /** What one run of the task does to the tables. */
  function Run(assets: seq<Asset>, prices: seq<PricePoint>, upstream: Upstream): (seq<Asset>, seq<PricePoint>)
  {
    match upstream
    case RequestFailed(_) => (assets, prices)
    case Received(coins) => Ingest(assets, prices, coins)
  }

  /** The task's return value. */
  function RunMessage(upstream: Upstream): (m: string)
    ensures upstream.RequestFailed? ==> StartsWith(m, "Erreur")
    ensures upstream.Received? ==> StartsWith(m, NatToString(|upstream.coins|) + " ")
  {
    match upstream
    case RequestFailed(reason) => "Erreur : " + reason
    case Received(coins) =>
      var count, tail := NatToString(|coins|), " actifs mis à jour avec historique.";
      assert (count + tail)[..|count| + 1] == count + tail[..1];
      assert tail[0] == ' ' && tail[..1] == [tail[0]];
      count + tail
  }

  /* ---------- properties of the specification ---------- */

  /** A failed upstream request changes nothing. */
  lemma FailedRequestChangesNothing(assets: seq<Asset>, prices: seq<PricePoint>, reason: string)
    ensures Run(assets, prices, RequestFailed(reason)) == (assets, prices)
  {
  }

  /** After a coin with a usable id, symbol and name, exactly one row carries its
      id, and that row holds the upper-cased symbol and the new name, whether or
      not its timestamp parsed. */
  lemma {:induction false} CoinUpsertsItsAsset(assets: seq<Asset>, prices: seq<PricePoint>, coin: Coin)
    requires TablesValid(assets, prices)
    requires coin.id.Val? && coin.symbol.Val? && coin.name.Val?
    ensures var r := IngestCoin(assets, prices, coin);
      exists k :: 0 <= k < |r.0| && r.0[k] == Asset(coin.id.v, Upper(coin.symbol.v), coin.name.v) &&
        forall j :: 0 <= j < |r.0| && j != k ==> r.0[j].coingeckoId != coin.id.v
  {
    var r := IngestCoin(assets, prices, coin);
    var u := UpsertAsset(assets, coin.id.v, coin.symbol.v, coin.name.v);
    assert r.0 == u.0;
    assert CoingeckoIdsUnique(u.0);
    assert u.0[u.1].coingeckoId == coin.id.v;
  }

  /** A coin whose point is new and complete adds exactly that point at the end. */
  lemma {:induction false} NewTimestampAccumulates(assets: seq<Asset>, prices: seq<PricePoint>, coin: Coin)
    requires coin.id.Val? && coin.symbol.Val? && coin.name.Val? && coin.parsedTime.Some?
    requires coin.currentPrice.Val? && coin.totalVolume.Val? && coin.marketCap.Val?
    requires FindPoint(prices, UpsertAsset(assets, coin.id.v, coin.symbol.v, coin.name.v).1, coin.parsedTime.value).None?
    ensures var r := IngestCoin(assets, prices, coin);
      r.1 == prices + [NewPoint(UpsertAsset(assets, coin.id.v, coin.symbol.v, coin.name.v).1, coin.parsedTime.value, coin)]
  {
  }

  /** An existing (asset, timestamp) point is never overwritten: ingesting its
      coin again leaves the price table as it was. */
  lemma {:induction false} ExistingPointKept(assets: seq<Asset>, prices: seq<PricePoint>, coin: Coin)
    requires coin.id.Val? && coin.symbol.Val? && coin.name.Val? && coin.parsedTime.Some?
    requires FindPoint(prices, UpsertAsset(assets, coin.id.v, coin.symbol.v, coin.name.v).1, coin.parsedTime.value).Some?
    ensures IngestCoin(assets, prices, coin).1 == prices
  {
  }

  /** Ingesting one more coin is one more loop pass. */
  lemma IngestSnoc(assets: seq<Asset>, prices: seq<PricePoint>, coins: seq<Coin>, c: Coin)
    ensures Ingest(assets, prices, coins + [c]) ==
      IngestCoin(Ingest(assets, prices, coins).0, Ingest(assets, prices, coins).1, c)
  {
    assert (coins + [c])[..|coins + [c]| - 1] == coins;
  }

  /** A coin that raises before the asset upsert (no usable id, symbol or name)
      is skipped and the loop goes on: the outcome is the same as if that coin
      had not been in the list. */
  lemma {:induction false} FailingCoinSkipped(assets: seq<Asset>, prices: seq<PricePoint>, coins: seq<Coin>, bad: Coin, rest: seq<Coin>)
    requires !(bad.id.Val? && bad.symbol.Val? && bad.name.Val?)
    ensures Ingest(assets, prices, coins + [bad] + rest) == Ingest(assets, prices, coins + rest)
    decreases |rest|
  {
    if rest == [] {
      IngestSnoc(assets, prices, coins, bad);
      assert coins + [bad] + rest == coins + [bad];
      assert coins + rest == coins;
    } else {
      var last := rest[|rest| - 1];
      var rest' := rest[..|rest| - 1];
      assert coins + [bad] + rest == (coins + [bad] + rest') + [last];
      assert coins + rest == (coins + rest') + [last];
      FailingCoinSkipped(assets, prices, coins, bad, rest');
      IngestSnoc(assets, prices, coins + [bad] + rest', last);
      IngestSnoc(assets, prices, coins + rest', last);
    }
  }

  /* ---------- the tables, updated in place ---------- */

  class PriceTables {
    var assets: seq<Asset>
    var prices: seq<PricePoint>

    ghost predicate Valid()
      reads this
    {
      TablesValid(assets, prices)
    }

    constructor ()
      ensures Valid() && assets == [] && prices == []
    {
      assets := [];
      prices := [];
    }

    /** `Asset.objects.filter(coingecko_id=id).first()` by a linear scan. */
    method LookupAsset(id: string) returns (found: Option<nat>)
      ensures found == FindAsset(assets, id)
    {
      found := None;
      var i := 0;
      while i < |assets|
        invariant 0 <= i <= |assets|
        invariant found == FindAsset(assets[..i], id)
      {
        assert assets[..i + 1][..i] == assets[..i];
        if found.None? && assets[i].coingeckoId == id {
          found := Some(i);
        }
        i := i + 1;
      }
      assert assets[..|assets|] == assets;
    }

    /** The point stored for (asset, timestamp), by a linear scan. */
    method LookupPoint(asset: nat, t: int) returns (found: Option<nat>)
      ensures found.Some? <==> FindPoint(prices, asset, t).Some?
    {
      found := None;
      var i := 0;
      while i < |prices|
        invariant 0 <= i <= |prices|
        invariant found.Some? <==> FindPoint(prices[..i], asset, t).Some?
      {
        assert prices[..i + 1][..i] == prices[..i];
        if prices[i].asset == asset && prices[i].timestamp == t {
          found := Some(i);
        }
        i := i + 1;
      }
      assert prices[..|prices|] == prices;
    }

    /** `update_or_create` on the Asset table. */
    method UpsertAssetRow(id: string, symbol: string, name: string) returns (pk: nat)
      requires Valid()
      modifies this
      ensures (assets, pk) == UpsertAsset(old(assets), id, symbol, name)
      ensures prices == old(prices)
      ensures TablesValid(assets, prices)
    {
      var row := Asset(id, Upper(symbol), name);
      var k := LookupAsset(id);
      if k.Some? {
        pk := k.value;
        assets := assets[pk := row];
      } else {
        pk := |assets|;
        assets := assets + [row];
      }
    }

    /** `get_or_create` on the PriceHistory table; `ok` is false when it raises. */
    method GetOrCreatePointRow(pk: nat, t: int, coin: Coin) returns (ok: bool)
      modifies this
      ensures assets == old(assets)
      ensures ok == GetOrCreatePoint(old(prices), pk, t, coin).Some?
      ensures prices == if ok then GetOrCreatePoint(old(prices), pk, t, coin).value else old(prices)
    {
      if coin.currentPrice.Absent? || coin.totalVolume.Absent? || coin.marketCap.Absent? {
        return false;
      }
      var existing := LookupPoint(pk, t);
      if existing.Some? {
        return true;
      }
      if coin.currentPrice.Val? && coin.totalVolume.Val? && coin.marketCap.Val? {
        prices := prices + [NewPoint(pk, t, coin)];
        return true;
      }
      return false;
    }

    /** One pass of the loop body, exceptions caught. */
    method IngestOne(coin: Coin)
      requires Valid()
      modifies this
      ensures Valid()
      ensures (assets, prices) == IngestCoin(old(assets), old(prices), coin)
    {
      if coin.id.Val? && coin.symbol.Val? && coin.name.Val? {
        var pk := UpsertAssetRow(coin.id.v, coin.symbol.v, coin.name.v);
        if coin.parsedTime.Some? {
          var _ := GetOrCreatePointRow(pk, coin.parsedTime.value, coin);
        }
      }
    }

    /** `fetch_crypto_prices`, given the outcome of the upstream request. */
    method FetchCryptoPrices(upstream: Upstream) returns (message: string)
      requires Valid()
      modifies this
      ensures Valid()
      ensures (assets, prices) == Run(old(assets), old(prices), upstream)
      ensures message == RunMessage(upstream)
    {
      if upstream.RequestFailed? {
        message := "Erreur : " + upstream.reason;
        return;
      }
      var coins := upstream.coins;
      var i := 0;
      while i < |coins|
        invariant 0 <= i <= |coins|
        invariant (assets, prices) == Ingest(old(assets), old(prices), coins[..i])
        invariant Valid()
      {
        IngestSnoc(old(assets), old(prices), coins[..i], coins[i]);
        assert coins[..i + 1] == coins[..i] + [coins[i]];
        IngestOne(coins[i]);
        i := i + 1;
      }
      assert coins[..|coins|] == coins;
      message := NatToString(|coins|) + " actifs mis à jour avec historique.";
    }
  }
}
