/** The market overview cards of frontend/components/dashboard/market-overview.tsx.
    Each `getPriceHistory(symbol, "7d")` the loop awaits is an oracle result,
    one per selected symbol in order; `Number.parseFloat` is an oracle function. */
module MarketOverview {
  import opened Common
  import opened ApiService
  import HeatmapSection

  datatype AssetCard = AssetCard(
    symbol: string, name: string, price: real, change24h: real, marketCap: real, volume24h: real)

  /** The card built from the last point of a history. */
  function CardOf(symbol: string, latest: PriceHistoryItem, parseFloat: string -> real): (c: AssetCard)
    ensures c.symbol == symbol && c.name == latest.name && c.change24h == latest.change24h
    ensures c.price == parseFloat(latest.priceUsd) && c.marketCap == parseFloat(latest.marketCap)
    ensures c.volume24h == parseFloat(latest.volume24h)
  {
    AssetCard(symbol, latest.name, parseFloat(latest.priceUsd), latest.change24h,
              parseFloat(latest.marketCap), parseFloat(latest.volume24h))
  }

  /** The card a fetched history yields: none for `null` or an empty list. */
  function CardFor(symbol: string, history: Option<seq<PriceHistoryItem>>, parseFloat: string -> real): (c: Option<AssetCard>)
    ensures c.None? <==> history.None? || history.value == []
    ensures c.Some? ==> c.value == CardOf(symbol, history.value[|history.value| - 1], parseFloat)
  {
    if history.Some? && |history.value| > 0 then
      Some(CardOf(symbol, history.value[|history.value| - 1], parseFloat))
    else None
  }

  function CardsAt(selected: seq<string>, results: seq<Option<seq<PriceHistoryItem>>>, parseFloat: string -> real)
    : (r: seq<Option<AssetCard>>)
    requires |results| == |selected|
    ensures |r| == |selected|
    ensures forall i :: 0 <= i < |selected| ==> r[i] == CardFor(selected[i], results[i], parseFloat)
  {
    seq(|selected|, i requires 0 <= i < |selected| => CardFor(selected[i], results[i], parseFloat))
  }

  /** The `assetData` record once the loop is done. */
  function Cards(selected: seq<string>, results: seq<Option<seq<PriceHistoryItem>>>, parseFloat: string -> real)
    : map<string, AssetCard>
    requires |results| == |selected|
  {
    CollectSome(selected, CardsAt(selected, results, parseFloat))
  }

  /** A symbol has a card exactly when one of its fetches returned a
      non-empty history. */
  lemma CardPresent(selected: seq<string>, results: seq<Option<seq<PriceHistoryItem>>>, parseFloat: string -> real, s: string)
    requires |results| == |selected|
    ensures s in Cards(selected, results, parseFloat) <==>
      exists i :: 0 <= i < |selected| && selected[i] == s && results[i].Some? && results[i].value != []
  {
    var vals := CardsAt(selected, results, parseFloat);
    CollectSomeKeys(selected, vals, s);
    assert forall i :: 0 <= i < |selected| ==> (vals[i].Some? <==> results[i].Some? && results[i].value != []);
  }

  /** A card is built from the last point of the last non-empty history of
      its symbol. */
  lemma CardFromLatest(selected: seq<string>, results: seq<Option<seq<PriceHistoryItem>>>, parseFloat: string -> real, s: string)
    returns (i: nat)
    requires |results| == |selected| && s in Cards(selected, results, parseFloat)
    ensures i < |selected| && selected[i] == s && results[i].Some? && results[i].value != []
    ensures Cards(selected, results, parseFloat)[s] == CardOf(s, results[i].value[|results[i].value| - 1], parseFloat)
    ensures forall j :: i < j < |selected| && selected[j] == s ==> results[j].None? || results[j].value == []
  {
    var vals := CardsAt(selected, results, parseFloat);
    i := CollectSomeLastWins(selected, vals, s);
  }

  /** `isPositive` of a card. */
  predicate IsPositive(card: AssetCard)
  {
    card.change24h >= 0.0
  }

  /** A card is positive exactly when the heatmap would draw the same change
      green with a "+". */
  lemma PositiveAgreesWithHeatmap(card: AssetCard)
    ensures IsPositive(card) <==> HeatmapSection.ChangePrefix(card.change24h) == "+"
    ensures IsPositive(card) <==> StartsWith(HeatmapSection.HeatmapColor(card.change24h), "bg-chart-2/")
  {
    HeatmapSection.GreenIffNonNegative(card.change24h);
  }

  class Overview {
    var assets: map<string, AssetCard>
    var loading: bool

    constructor ()
      ensures assets == map[] && loading
    {
      assets := map[];
      loading := true;
    }

    /** `fetchAssets`: the loop over the selection, then the record and
      the end of loading. */
    method FetchAssets(selected: seq<string>, results: seq<Option<seq<PriceHistoryItem>>>, parseFloat: string -> real)
      requires |results| == |selected|
      modifies this
      ensures assets == Cards(selected, results, parseFloat) && !loading
    {
      loading := true;
      var assetData: map<string, AssetCard> := map[];
      ghost var vals := CardsAt(selected, results, parseFloat);
      for i := 0 to |selected|
        invariant assetData == CollectSome(selected[..i], vals[..i])
      {
        CollectSomeStep(selected, vals, i);
        var data := results[i];
        if data.Some? && |data.value| > 0 {
          var latest := data.value[|data.value| - 1];
          assetData := assetData[selected[i] := CardOf(selected[i], latest, parseFloat)];
        }
      }
      assert selected[..|selected|] == selected && vals[..|vals|] == vals;
      assets := assetData;
      loading := false;
    }

    /** The effect on `[selectedAssets]`: nothing at all for an empty selection. */
    method Refresh(selected: seq<string>, results: seq<Option<seq<PriceHistoryItem>>>, parseFloat: string -> real)
      requires |results| == |selected|
      modifies this
      ensures selected != [] ==> assets == Cards(selected, results, parseFloat) && !loading
      ensures selected == [] ==> assets == old(assets) && loading == old(loading)
    {
      if |selected| > 0 {
        FetchAssets(selected, results, parseFloat);
      }
    }
  }
}
