/** The asset and time-range pickers of
    frontend/components/dashboard/header.tsx. The callbacks the header is
    given are modelled by the value they receive. */
module Header {

  const TimeRanges: seq<string> := ["1h", "4h", "24h", "7d", "1M", "1Y"]
  const CryptoAssets: seq<string> := ["BTC", "ETH", "XRP", "SOL", "ADA", "DOGE"]

  /** `selectedAssets.filter((a) => a !== asset)`. */
  function Without(s: seq<string>, asset: string): (r: seq<string>)
    ensures asset !in r
    ensures forall a :: a in r <==> a in s && a != asset
    ensures |r| <= |s|
  {
    if s == [] then []
    else (if s[0] == asset then [] else [s[0]]) + Without(s[1..], asset)
  }

  lemma {:induction false} WithoutAbsent(s: seq<string>, asset: string)
    requires asset !in s
    ensures Without(s, asset) == s
  {
    if s != [] {
      assert asset !in s[1..];
      WithoutAbsent(s[1..], asset);
    }
  }

  /** `toggleAsset`: the list handed to `onAssetsChange`. */
  function ToggleAsset(selected: seq<string>, asset: string): (r: seq<string>)
    ensures asset in selected ==> asset !in r && (forall a :: a in r <==> a in selected && a != asset)
    ensures asset !in selected ==> r == selected + [asset]
    ensures asset in r <==> asset !in selected
  {
    if asset in selected then Without(selected, asset) else selected + [asset]
  }

  lemma {:induction false} WithoutAppended(s: seq<string>, asset: string)
    ensures Without(s + [asset], asset) == Without(s, asset)
  {
    if s == [] {
      assert Without([asset], asset) == [] + Without([], asset);
    } else {
      assert (s + [asset])[1..] == s[1..] + [asset];
      WithoutAppended(s[1..], asset);
    }
  }

  /** Toggling changes the membership of `asset` only: with it removed, the
      selection before and after is the same list, so the other assets keep
      their relative order. */
  lemma ToggleKeepsOthers(selected: seq<string>, asset: string)
    ensures Without(ToggleAsset(selected, asset), asset) == Without(selected, asset)
  {
    if asset in selected {
      WithoutAbsent(Without(selected, asset), asset);
    } else {
      WithoutAppended(selected, asset);
    }
  }

  /** Toggling an absent asset twice gives the original selection back. */
  lemma ToggleAbsentTwice(selected: seq<string>, asset: string)
    requires asset !in selected
    ensures ToggleAsset(ToggleAsset(selected, asset), asset) == selected
  {
    WithoutAppended(selected, asset);
    WithoutAbsent(selected, asset);
  }

  /** The `timeRange === range` test that styles the `j`-th range button as
      the current one. */
  predicate Highlighted(timeRange: string, j: nat)
    requires j < |TimeRanges|
  {
    TimeRanges[j] == timeRange
  }

  /** The `index`-th button hands `TimeRanges[index]` to `onTimeRangeChange`;
      once that is the current range, that button and no other is highlighted. */
  lemma ClickHighlightsItsButton(index: nat, j: nat)
    requires index < |TimeRanges| && j < |TimeRanges|
    ensures Highlighted(TimeRanges[index], j) <==> j == index
  {
  }

  /** A current range that no button names highlights none of them. */
  lemma UnlistedRangeHighlightsNone(timeRange: string, j: nat)
    requires timeRange !in TimeRanges && j < |TimeRanges|
    ensures !Highlighted(timeRange, j)
  {
  }
}
