/** The market heatmap panel of frontend/components/dashboard/heatmap-section.tsx:
    the colour of a tile, the first twelve tiles shown, and the show-more
    toggle. The `getHeatmapData("24h")` call is an oracle. */
module HeatmapSection {
  import opened Common
  import opened ApiService

  const PageSize: nat := 12

  /** `getHeatmapColor`: six buckets with inclusive lower bounds. */
  function HeatmapColor(change: real): (c: string)
    ensures c == "bg-chart-2/90" <==> change >= 10.0
    ensures c == "bg-chart-2/70" <==> 5.0 <= change < 10.0
    ensures c == "bg-chart-2/40" <==> 0.0 <= change < 5.0
    ensures c == "bg-destructive/40" <==> -5.0 <= change < 0.0
    ensures c == "bg-destructive/70" <==> -10.0 <= change < -5.0
    ensures c == "bg-destructive/90" <==> change < -10.0
  {
    if change >= 10.0 then "bg-chart-2/90"
    else if change >= 5.0 then "bg-chart-2/70"
    else if change >= 0.0 then "bg-chart-2/40"
    else if change >= -5.0 then "bg-destructive/40"
    else if change >= -10.0 then "bg-destructive/70"
    else "bg-destructive/90"
  }

  /** The "+" in front of a tile's change. */
  function ChangePrefix(change: real): (p: string)
    ensures p == "+" <==> change >= 0.0
    ensures p == "" <==> change < 0.0
  {
    if change >= 0.0 then "+" else ""
  }

  /** A tile is green exactly when its change is non-negative, which is
      exactly when it carries a "+". */
  lemma GreenIffNonNegative(change: real)
    ensures StartsWith(HeatmapColor(change), "bg-chart-2/") <==> change >= 0.0
    ensures StartsWith(HeatmapColor(change), "bg-destructive/") <==> change < 0.0
    ensures StartsWith(HeatmapColor(change), "bg-chart-2/") <==> ChangePrefix(change) == "+"
  {
    var c := HeatmapColor(change);
    if change >= 0.0 {
      assert c[..11] == "bg-chart-2/";
      assert |c| < |"bg-destructive/"|;
    } else {
      assert c[..15] == "bg-destructive/";
      assert c[3] != "bg-chart-2/"[3];
    }
  }

  /** `slice(0, 12)`. */
  function FirstPage(all: seq<HeatmapTile>): (r: seq<HeatmapTile>)
    ensures |r| == if |all| < PageSize then |all| else PageSize
    ensures r <= all
  {
    if |all| < PageSize then all else all[..PageSize]
  }

  /** What the grid shows for the flag. */
  function Shown(all: seq<HeatmapTile>, showAll: bool): seq<HeatmapTile>
  {
    if showAll then all else FirstPage(all)
  }

  /** The show-more button: absent up to twelve tiles, otherwise "Show less"
      while everything is shown, else the count of hidden tiles. */
  function ShowMoreButton(total: nat, showAll: bool): (text: Option<string>)
    ensures text.None? <==> total <= PageSize
    ensures text.Some? && showAll ==> text.value == "Show less"
    ensures text.Some? && !showAll ==> text.value == "Show more (" + NatToString(total - PageSize) + " more)"
  {
    if total <= PageSize then None
    else if showAll then Some("Show less")
    else Some("Show more (" + NatToString(total - PageSize) + " more)")
  }

  /** The text counts exactly the tiles the first page hides. */
  lemma ShowMoreCountsHidden(all: seq<HeatmapTile>)
    requires |all| > PageSize
    ensures var text := ShowMoreButton(|all|, false).value;
      text[11..|text| - 6] == NatToString(|all| - |FirstPage(all)|)
  {
    var n := NatToString(|all| - PageSize);
    var text := "Show more (" + n + " more)";
    assert text[11..|text| - 6] == n;
  }

  class Panel {
    var heatmapData: seq<HeatmapTile>
    var allHeatmapData: seq<HeatmapTile>
    var loading: bool
    var showAll: bool

    /** The grid shows what the flag says. */
    predicate Valid()
      reads this
    {
      heatmapData == Shown(allHeatmapData, showAll)
    }

    constructor ()
      ensures heatmapData == [] && allHeatmapData == [] && loading && !showAll
      ensures Valid()
    {
      heatmapData := [];
      allHeatmapData := [];
      loading := true;
      showAll := false;
    }

    /** `fetchHeatmap` on mount: a body replaces the tiles and shows the first
      page; without one the tiles stay; loading ends either way. */
    method FetchHeatmap(data: Option<HeatmapBody>)
      modifies this
      ensures !loading && showAll == old(showAll)
      ensures data.Some? ==> allHeatmapData == TransformHeatmap(data.value) && heatmapData == FirstPage(allHeatmapData)
      ensures data.None? ==> allHeatmapData == old(allHeatmapData) && heatmapData == old(heatmapData)
      ensures data.Some? && !showAll ==> Valid()
    {
      loading := true;
      if data.Some? {
        var transformed := TransformHeatmap(data.value);
        allHeatmapData := transformed;
        heatmapData := FirstPage(transformed);
      }
      loading := false;
    }

    /** `toggleShowAll`: flips the flag and shows what it now says. */
    method ToggleShowAll()
      modifies this
      ensures showAll == !old(showAll)
      ensures old(showAll) ==> heatmapData == FirstPage(allHeatmapData)
      ensures !old(showAll) ==> heatmapData == allHeatmapData
      ensures allHeatmapData == old(allHeatmapData) && loading == old(loading)
      ensures Valid()
    {
      if showAll {
        heatmapData := FirstPage(allHeatmapData);
      } else {
        heatmapData := allHeatmapData;
      }
      showAll := !showAll;
    }
  }

  /** Two toggles bring the grid back to the first page. */
  method ToggleTwice(panel: Panel)
    modifies panel
    requires !panel.showAll
    ensures !panel.showAll && panel.heatmapData == FirstPage(panel.allHeatmapData)
    ensures panel.allHeatmapData == old(panel.allHeatmapData)
  {
    panel.ToggleShowAll();
    panel.ToggleShowAll();
  }
}
