/**
 * The handlers the charts install: a click on an area bar shows only the
 * buildings of that bar's area range, a click on a lease-expiry bar applies a
 * unique-value table built from the bar's year, and the reload button goes
 * back to the overview gradient. Each of them replaces the layer's renderer
 * and switches the scene's shadows and ambient occlusion off (for a bar) or
 * on (for reload).
 */
module ChartHandlers {
  import opened Wrappers
  import opened JsValues
  import opened ArrayUtil
  import Radix
  import opened ApplyRenderer
  import opened BarMaker

  /** The colour a bar hands to the renderer: its CSS string, or `undefined` past the ramp. */
  function BarColor(color: Option<string>): Color {
    match color
    case Some(s) => Css(s)
    case None => NoColor
  }

  /** The one-character strings of `s`, in order: what indexing `s[i]` gives. */
  function Characters(s: string): (r: seq<string>)
    ensures |r| == |s|
    ensures forall i :: 0 <= i < |s| ==> r[i] == [s[i]]
  {
    seq(|s|, i requires 0 <= i < |s| => [s[i]])
  }

  /** The colours `color[i]` of a CSS string: one per character. */
  function CharacterColors(s: string): (r: seq<Color>)
    ensures |r| == |s|
    ensures forall i :: 0 <= i < |s| ==> r[i] == Css([s[i]])
  {
    seq(|s|, i requires 0 <= i < |s| => Css([s[i]]))
  }

  /** The state the handlers change: the building layer's renderer and the scene's two lighting switches. */
  class SceneState {
    var renderer: Renderer
    var directShadowsEnabled: bool
    var ambientOcclusionEnabled: bool

    constructor (renderer0: Renderer, shadows: bool, occlusion: bool)
      ensures renderer == renderer0
      ensures directShadowsEnabled == shadows && ambientOcclusionEnabled == occlusion
    {
      renderer := renderer0;
      directShadowsEnabled := shadows;
      ambientOcclusionEnabled := occlusion;
    }

    /** A click on an area bar: a gradient that colours only the bar's range, with the lighting off. */
    method ClickBin(bin: Bin, areaname: string)
      modifies this
      ensures renderer == CreateRendererVVbar(bin.subdata.min, bin.subdata.max, BarColor(bin.color), areaname)
      ensures !directShadowsEnabled && !ambientOcclusionEnabled
    {
      var max := bin.subdata.max;
      var min := bin.subdata.min;
      var color := BarColor(bin.color);
      renderer := CreateRendererVVbar(min, max, color, areaname);
      directShadowsEnabled := false;
      ambientOcclusionEnabled := false;
    }

    /** The reload button: the overview gradient over the whole selection, with the lighting on. */
    method Reload(selection: seq<Feature>, areaname: string)
      modifies this
      ensures renderer == OverviewRenderer(selection, areaname)
      ensures directShadowsEnabled && ambientOcclusionEnabled
    {
      renderer := CreateRendererVV(selection, areaname);
      directShadowsEnabled := true;
      ambientOcclusionEnabled := true;
    }

    /**
     * A click on a lease-expiry bar: `createRenderer(year, color, field)`
     * with the year and the colour as strings, so the table has one entry
     * per character of the year, coloured by the character of the colour
     * string at the same index. A bar past the colour ramp has no colour;
     * reading a character of `undefined` throws before anything changes.
     */
    method ClickYear(bin: YearBin, leaseexpiryname: string)
      modifies this
      ensures bin.color.None? ==>
        && renderer == old(renderer)
        && directShadowsEnabled == old(directShadowsEnabled)
        && ambientOcclusionEnabled == old(ambientOcclusionEnabled)
      ensures bin.color.Some? ==>
        && renderer.Discrete? && renderer.field == leaseexpiryname
        && IsValueTable(renderer.infos, Characters(Radix.IntToString(bin.year, 10)), CharacterColors(bin.color.value))
        && !directShadowsEnabled && !ambientOcclusionEnabled
    {
      if bin.color.Some? {
        var year := Characters(Radix.IntToString(bin.year, 10));
        var color := CharacterColors(bin.color.value);
        renderer := CreateRenderer(year, color, leaseexpiryname);
        directShadowsEnabled := false;
        ambientOcclusionEnabled := false;
      }
    }
  }

  /**
   * The table a lease-expiry click builds only knows one-character values:
   * every field value of another length, a whole year or date included,
   * gets the grey default symbol.
   */
  lemma YearTableMissesLongValues(infos: seq<ValueInfo>, year: int, color: string, v: string)
    requires IsValueTable(infos, Characters(Radix.IntToString(year, 10)), CharacterColors(color))
    requires |v| != 1
    ensures Lookup(infos, v, CreateSymbol(DEFAULT_GREY)) == CreateSymbol(DEFAULT_GREY)
  {
    forall m | 0 <= m < |infos| ensures infos[m].value != v {
      assert |infos[m].value| == 1;
    }
    LookupMiss(infos, v, CreateSymbol(DEFAULT_GREY));
  }

  /**
   * A one-character value is coloured by the character of the colour string
   * at its first position in the year's digits (or left `undefined` past the
   * end of the colour string).
   */
  lemma YearTableHitsDigits(infos: seq<ValueInfo>, year: int, color: string, j: nat)
    requires IsValueTable(infos, Characters(Radix.IntToString(year, 10)), CharacterColors(color))
    requires j < |Radix.IntToString(year, 10)|
    requires forall k :: 0 <= k < j ==> Radix.IntToString(year, 10)[k] != Radix.IntToString(year, 10)[j]
    ensures var d := Radix.IntToString(year, 10);
      Lookup(infos, [d[j]], CreateSymbol(DEFAULT_GREY)) == CreateSymbol(if j < |color| then Css([color[j]]) else NoColor)
  {
    var d := Radix.IntToString(year, 10);
    forall k | 0 <= k < j ensures infos[k].value != [d[j]] {
      assert infos[k].value == [d[k]];
    }
    LookupFirst(infos, [d[j]], CreateSymbol(DEFAULT_GREY), j);
  }
}
