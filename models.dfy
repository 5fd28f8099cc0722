/** The records of the back end's Django app (backend/core/models.py) as values,
    the tables as sequences, and the constraints the models declare. A row's
    primary key is its index in its table's sequence; rows are never deleted in
    this model, so these keys are stable. Timestamps are whole seconds since an
    epoch; prices and amounts are `real`. */
module Models {
  import opened Common

  /* ---------- Asset ---------- */

  datatype Asset = Asset(coingeckoId: string, symbol: string, name: string)

  /** `Asset.__str__`: "name (SYMBOL)". */
  function AssetLabel(a: Asset): (r: string)
    ensures |r| == |a.name| + |a.symbol| + 3
    ensures r[..|a.name|] == a.name
    ensures r[|a.name| + 2 .. |r| - 1] == Upper(a.symbol)
    ensures r[|a.name|..|a.name| + 2] == " (" && r[|r| - 1] == ')'
  {
    a.name + " (" + Upper(a.symbol) + ")"
  }

  /** The label does not depend on the case in which the symbol is stored. */
  lemma AssetLabelIgnoresSymbolCase(a: Asset)
    ensures AssetLabel(a.(symbol := Upper(a.symbol))) == AssetLabel(a)
  {
    UpperIdempotent(a.symbol);
  }

  /** `coingecko_id = CharField(unique=True)`. */
  predicate CoingeckoIdsUnique(assets: seq<Asset>)
  {
    forall i, j :: 0 <= i < j < |assets| ==> assets[i].coingeckoId != assets[j].coingeckoId
  }

  /* ---------- PriceHistory ---------- */

  datatype PricePoint = PricePoint(
    asset: nat,                // primary key of the Asset row
    priceUsd: real,
    volume24h: real,
    marketCap: real,
    change1h: Option<real>,    // FloatField(null=True)
    change24h: Option<real>,
    change7d: Option<real>,
    timestamp: int)

  /** `unique_together = ('asset', 'timestamp')`. */
  predicate PointsUnique(prices: seq<PricePoint>)
  {
    forall i, j :: 0 <= i < j < |prices| ==>
      prices[i].asset != prices[j].asset || prices[i].timestamp != prices[j].timestamp
  }

  /** Every point refers to an existing asset (the foreign key). */
  predicate PointsReferTo(prices: seq<PricePoint>, assetCount: nat)
  {
    forall i :: 0 <= i < |prices| ==> prices[i].asset < assetCount
  }

  /** Both tables of the price feed together satisfy every declared constraint. */
  predicate TablesValid(assets: seq<Asset>, prices: seq<PricePoint>)
  {
    CoingeckoIdsUnique(assets) && PointsUnique(prices) && PointsReferTo(prices, |assets|)
  }

  predicate Ascending(s: seq<PricePoint>)
  {
    forall i, j :: 0 <= i < j < |s| ==> s[i].timestamp <= s[j].timestamp
  }

  predicate Descending(s: seq<PricePoint>)
  {
    forall i, j :: 0 <= i < j < |s| ==> s[i].timestamp >= s[j].timestamp
  }

  /** Inserts `p` into an ascending sequence, before the first point that is not older. */
  function InsertByTime(p: PricePoint, s: seq<PricePoint>): (r: seq<PricePoint>)
    requires Ascending(s)
    ensures |r| == |s| + 1
    ensures forall x :: x in r <==> x == p || x in s
    ensures Ascending(r)
    ensures multiset(r) == multiset(s) + multiset{p}
  {
    if s == [] || p.timestamp <= s[0].timestamp then [p] + s
    else
      var rest := InsertByTime(p, s[1..]);
      assert s == [s[0]] + s[1..];
      assert forall x | x in rest :: s[0].timestamp <= x.timestamp;
      ConsAscending(s[0], rest);
      [s[0]] + rest
  }

  /** A point no newer than any of an ascending sequence may head it. */
  lemma ConsAscending(h: PricePoint, rest: seq<PricePoint>)
    requires Ascending(rest) && forall x | x in rest :: h.timestamp <= x.timestamp
    ensures Ascending([h] + rest)
  {
    assert forall i :: 0 <= i < |rest| ==> rest[i] in rest;
  }

  /** `order_by('timestamp')`: the points ordered oldest first. */
  function OrderByTimestamp(s: seq<PricePoint>): (r: seq<PricePoint>)
    ensures Ascending(r)
    ensures multiset(r) == multiset(s)
    ensures |r| == |s|
    ensures forall x :: x in r <==> x in s
  {
    if s == [] then []
    else
      assert s == [s[0]] + s[1..];
      InsertByTime(s[0], OrderByTimestamp(s[1..]))
  }

  function Reverse<T>(s: seq<T>): (r: seq<T>)
    ensures |r| == |s|
    ensures forall i :: 0 <= i < |s| ==> r[i] == s[|s| - 1 - i]
    ensures multiset(r) == multiset(s)
  {
    if s == [] then []
    else
      assert s == [s[0]] + s[1..];
      Reverse(s[1..]) + [s[0]]
  }

  /** `Meta.ordering = ['-timestamp']`: the default order of every PriceHistory
      query that does not ask for another, newest first. */
  function DefaultOrdering(s: seq<PricePoint>): (r: seq<PricePoint>)
    ensures Descending(r)
    ensures multiset(r) == multiset(s)
    ensures forall x :: x in r <==> x in s
  {
    var o := OrderByTimestamp(s);
    var r := Reverse(o);
    assert forall x :: x in r <==> x in multiset(o);
    r
  }

  /* ---------- Alert ---------- */

  datatype Condition = Above | Below

  /** The stored value of each choice of `CONDITION_CHOICES`. */
  function ConditionValue(c: Condition): string
  {
    match c
    case Above => "above"
    case Below => "below"
  }

  /** Validates a submitted condition against `CONDITION_CHOICES`. */
  function ParseCondition(s: string): (r: Option<Condition>)
    ensures r.Some? <==> s == "above" || s == "below"
    ensures r.Some? ==> ConditionValue(r.value) == s
  {
    if s == "above" then Some(Above) else if s == "below" then Some(Below) else None
  }

  lemma ConditionRoundTrip(c: Condition)
    ensures ParseCondition(ConditionValue(c)) == Some(c)
  {
  }

  datatype Alert = Alert(
    user: nat, asset: nat, condition: Condition, targetPrice: real,
    isActive: bool, createdAt: int, triggeredAt: Option<int>)

  /** A new Alert row: active, never triggered, stamped with the creation time. */
  function NewAlert(user: nat, asset: nat, condition: Condition, targetPrice: real, now: int): (r: Alert)
    ensures r.isActive && r.triggeredAt == None && r.createdAt == now
    ensures r.user == user && r.asset == asset && r.condition == condition && r.targetPrice == targetPrice
  {
    Alert(user, asset, condition, targetPrice, true, now, None)
  }

  /* ---------- VirtualPortfolio and VirtualHolding ---------- */

  const DefaultBalance: real := 100000.00

  datatype Portfolio = Portfolio(user: nat, initialBalance: real, cashBalance: real, realizedPnl: real)

  datatype Holding = Holding(portfolio: nat, asset: nat, quantity: real, avgPrice: real)

  /** The outcome of an INSERT against a table with a uniqueness constraint. */
  datatype Insert<T> = Inserted(table: seq<T>) | IntegrityError

  /** `user = OneToOneField(...)`. */
  predicate OnePortfolioPerUser(t: seq<Portfolio>)
  {
    forall i, j :: 0 <= i < j < |t| ==> t[i].user != t[j].user
  }

  /** `unique_together = ('portfolio', 'asset')`. */
  predicate HoldingsUnique(t: seq<Holding>)
  {
    forall i, j :: 0 <= i < j < |t| ==> t[i].portfolio != t[j].portfolio || t[i].asset != t[j].asset
  }

  /** `VirtualPortfolio.objects.create(user=user)` with every other field at its default. */
  function CreatePortfolio(t: seq<Portfolio>, user: nat): (r: Insert<Portfolio>)
    ensures r.IntegrityError? <==> exists i :: 0 <= i < |t| && t[i].user == user
    ensures r.Inserted? ==> r.table == t + [Portfolio(user, DefaultBalance, DefaultBalance, 0.0)]
    ensures OnePortfolioPerUser(t) && r.Inserted? ==> OnePortfolioPerUser(r.table)
  {
    if exists i :: 0 <= i < |t| && t[i].user == user then IntegrityError
    else Inserted(t + [Portfolio(user, DefaultBalance, DefaultBalance, 0.0)])
  }

  /** `VirtualHolding.objects.create(portfolio=p, asset=a)` with quantity and average price 0. */
  function CreateHolding(t: seq<Holding>, portfolio: nat, asset: nat): (r: Insert<Holding>)
    ensures r.IntegrityError? <==> exists i :: 0 <= i < |t| && t[i].portfolio == portfolio && t[i].asset == asset
    ensures r.Inserted? ==> r.table == t + [Holding(portfolio, asset, 0.0, 0.0)]
    ensures HoldingsUnique(t) && r.Inserted? ==> HoldingsUnique(r.table)
  {
    if exists i :: 0 <= i < |t| && t[i].portfolio == portfolio && t[i].asset == asset then IntegrityError
    else Inserted(t + [Holding(portfolio, asset, 0.0, 0.0)])
  }
}
