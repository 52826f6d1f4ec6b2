/**
 * The renderer builders: a value-to-symbol table with a grey default, and
 * colour visual variables given by stops (a two-stop overview gradient, a
 * four-stop "highlight one bin" gradient, a three-stop "highlight one year"
 * gradient), plus the opacity visual variable. Renderers are plain values
 * here; the mapping SDK that draws them is not part of this model.
 */
module ApplyRenderer {
  import opened Wrappers
  import opened JsValues
  import opened ArrayUtil
  import opened LeaseYears

  /** An `[r, g, b, a]` colour array. */
  datatype Rgba = Rgba(r: int, g: int, b: int, a: real)

  /** A colour as the SDK receives it: a CSS string, an RGBA array, or `undefined`. */
  datatype Color = Css(css: string) | Components(rgba: Rgba) | NoColor

  /** A MeshSymbol3D with one FillSymbol3DLayer whose material has this colour. */
  datatype Symbol = MeshFill(color: Color)

  /** One entry of a unique-value table. */
  datatype ValueInfo = ValueInfo(value: string, symbol: Symbol, caption: string)

  /** A stop of a colour visual variable. */
  datatype Stop = Stop(value: Number, color: Color)

  /**
   * A UniqueValueRenderer: either a table of unique values on `field`, or no
   * table and one colour visual variable on `field` given by its stops.
   */
  datatype Renderer =
    | Discrete(field: string, defaultSymbol: Symbol, defaultLabel: string, infos: seq<ValueInfo>)
    | Continuous(field: string, defaultSymbol: Symbol, defaultLabel: string, stops: seq<Stop>)

  /** A stop of an opacity visual variable; an opacity past the end of `alpha` is `undefined`. */
  datatype OpacityStop = OpacityStop(value: real, opacity: Option<real>)

  /** An opacity visual variable; `stops` is None when it is `undefined`. */
  datatype OpacityVariable = OpacityVariable(field: string, stops: Option<seq<OpacityStop>>)

  const DEFAULT_GREY: Color := Components(Rgba(135, 135, 135, 0.2))
  const WHITE: Color := Css("white")
  const LOW_COLOR: Color := Css("#E4002B")
  const HIGH_COLOR: Color := Css("#001933")
  const DEFAULT_LABEL: string := "N.A."

  function CreateSymbol(color: Color): Symbol {
    MeshFill(color)
  }

  /** `color[j]`: the colour at `j`, or `undefined` past the end. */
  function ColorAt(colors: seq<Color>, j: nat): Color {
    if j < |colors| then colors[j] else NoColor
  }

  /** `infos` has one entry per value, in order, each labelled by its value and coloured by the colour at its index. */
  predicate IsValueTable(infos: seq<ValueInfo>, values: seq<string>, colors: seq<Color>) {
    && |infos| == |values|
    && forall j :: 0 <= j < |infos| ==> infos[j] == ValueInfo(values[j], CreateSymbol(ColorAt(colors, j)), values[j])
  }

  method CreateValueInfos(values: seq<string>, colors: seq<Color>) returns (valueInfos: seq<ValueInfo>)
    ensures IsValueTable(valueInfos, values, colors)
  {
    var fields: seq<(string, Color)> := [];
    for i := 0 to |values|
      invariant |fields| == i
    {
      fields := fields + [(values[i], ColorAt(colors, i))];
    }
    valueInfos := [];
    for j := 0 to |fields|
      invariant |valueInfos| == j
      invariant forall k :: 0 <= k < j ==> valueInfos[k] == ValueInfo(values[k], CreateSymbol(ColorAt(colors, k)), values[k])
    {
      valueInfos := valueInfos + [ValueInfo(values[j], CreateSymbol(ColorAt(colors, j)), values[j])];
    }
  }

  method CreateRenderer(values: seq<string>, colors: seq<Color>, fieldname: string) returns (r: Renderer)
    ensures r.Discrete? && r.field == fieldname
    ensures r.defaultSymbol == CreateSymbol(DEFAULT_GREY) && r.defaultLabel == DEFAULT_LABEL
    ensures IsValueTable(r.infos, values, colors)
  {
    var infos := CreateValueInfos(values, colors);
    r := Discrete(fieldname, CreateSymbol(DEFAULT_GREY), DEFAULT_LABEL, infos);
  }

  /**
   * The symbol a unique-value table gives `v`, read as exact string matching
   * where the first entry for `v` wins and any other value gets the default.
   * This is an assumed reading of how the mapping SDK's renderer matches values.
   */
  function Lookup(infos: seq<ValueInfo>, v: string, default: Symbol): Symbol
    decreases |infos|
  {
    if infos == [] then default
    else if infos[0].value == v then infos[0].symbol
    else Lookup(infos[1..], v, default)
  }

  lemma {:induction false} LookupFirst(infos: seq<ValueInfo>, v: string, default: Symbol, k: nat)
    requires k < |infos| && infos[k].value == v
    requires forall m :: 0 <= m < k ==> infos[m].value != v
    ensures Lookup(infos, v, default) == infos[k].symbol
    decreases k
  {
    if k > 0 {
      LookupFirst(infos[1..], v, default, k - 1);
    }
  }

  lemma {:induction false} LookupMiss(infos: seq<ValueInfo>, v: string, default: Symbol)
    requires forall m :: 0 <= m < |infos| ==> infos[m].value != v
    ensures Lookup(infos, v, default) == default
    decreases |infos|
  {
    if infos != [] {
      LookupMiss(infos[1..], v, default);
    }
  }

  /**
   * Reading the table built from distinct values: each value gets the symbol
   * of the colour at its index, and any other value gets the default.
   */
  lemma ValueTableLookup(infos: seq<ValueInfo>, values: seq<string>, colors: seq<Color>, default: Symbol, v: string)
    requires IsValueTable(infos, values, colors) && Distinct(values)
    ensures forall j :: 0 <= j < |values| && values[j] == v ==> Lookup(infos, v, default) == CreateSymbol(ColorAt(colors, j))
    ensures v !in values ==> Lookup(infos, v, default) == default
  {
    forall j | 0 <= j < |values| && values[j] == v
      ensures Lookup(infos, v, default) == CreateSymbol(ColorAt(colors, j))
    {
      LookupFirst(infos, v, default, j);
    }
    if v !in values {
      LookupMiss(infos, v, default);
    }
  }

  /** `alpha[i]`, or `undefined` past the end. */
  function AlphaAt(alpha: seq<real>, i: nat): Option<real> {
    if i < |alpha| then Some(alpha[i]) else None
  }

  /** The list `createStops` builds; the source function ends without returning it. */
  method CreateStops(alpha: seq<real>, values: seq<real>) returns (stops: seq<OpacityStop>)
    ensures |stops| == if values == [] then 0 else |values| + 1
    ensures values != [] ==> stops[0] == OpacityStop(values[0], AlphaAt(alpha, 0))
    ensures forall i :: 0 <= i < |values| ==> stops[i + 1] == OpacityStop(values[i], AlphaAt(alpha, i))
  {
    stops := [];
    for i := 0 to |values|
      invariant |stops| == if i == 0 then 0 else i + 1
      invariant i > 0 ==> stops[0] == OpacityStop(values[0], AlphaAt(alpha, 0))
      invariant forall k :: 0 <= k < i ==> stops[k + 1] == OpacityStop(values[k], AlphaAt(alpha, k))
    {
      if i == 0 {
        stops := stops + [OpacityStop(values[0], AlphaAt(alpha, 0))];
      }
      stops := stops + [OpacityStop(values[i], AlphaAt(alpha, i))];
    }
  }

  /** The opacity visual variable; since `createStops` returns nothing, its stops are `undefined`. */
  method ApplyOpacity(fieldname: string, alpha: seq<real>, values: seq<real>) returns (opacVisVar: OpacityVariable)
    ensures opacVisVar.field == fieldname && opacVisVar.stops == None
  {
    var discarded := CreateStops(alpha, values);
    opacVisVar := OpacityVariable(fieldname, None);
  }

  /** The stops have finite values that never decrease. */
  predicate Ascending(stops: seq<Stop>) {
    && (forall i :: 0 <= i < |stops| ==> stops[i].value.Finite?)
    && (forall i, j :: 0 <= i < j < |stops| ==> stops[i].value.x <= stops[j].value.x)
  }

  /** The stops have finite values that strictly increase. */
  predicate StopsStrictlyAscending(stops: seq<Stop>) {
    && (forall i :: 0 <= i < |stops| ==> stops[i].value.Finite?)
    && (forall i, j :: 0 <= i < j < |stops| ==> stops[i].value.x < stops[j].value.x)
  }

  /**
   * The overview gradient over `values`: `Math.floor(Math.min(...values))` in
   * the low colour, `Math.ceil(Math.max(...values))` in the high colour; for no
   * values they are Infinity and -Infinity.
   */
  function OverviewStops(values: seq<real>): seq<Stop> {
    [ Stop(if values == [] then PlusInfinity else Finite(Floor(Min(values)) as real), LOW_COLOR),
      Stop(if values == [] then MinusInfinity else Finite(Ceil(Max(values)) as real), HIGH_COLOR) ]
  }

  /** What `createRendererVV(selection, fieldname)` returns. */
  function OverviewRenderer(selection: seq<Feature>, fieldname: string): Renderer {
    Continuous(fieldname, CreateSymbol(WHITE), DEFAULT_LABEL, OverviewStops(NumericValues(selection, fieldname)))
  }

  method CreateRendererVV(selection: seq<Feature>, fieldname: string) returns (r: Renderer)
    ensures r == OverviewRenderer(selection, fieldname)
  {
    var totalrange := CollectNumeric(selection, fieldname);
    var valuemax := if totalrange == [] then MinusInfinity else Finite(Ceil(Max(totalrange)) as real);
    var valuemin := if totalrange == [] then PlusInfinity else Finite(Floor(Min(totalrange)) as real);
    r := Continuous(fieldname, CreateSymbol(WHITE), DEFAULT_LABEL, [Stop(valuemin, LOW_COLOR), Stop(valuemax, HIGH_COLOR)]);
  }

  /**
   * The overview gradient has two stops. With values, they are the largest
   * integer at most every value and the smallest integer at least every value,
   * so the first is at most the second; without values, they are the infinities.
   */
  lemma OverviewSpan(values: seq<real>)
    ensures var s := OverviewStops(values);
      && |s| == 2 && s[0].color == LOW_COLOR && s[1].color == HIGH_COLOR
      && (values == [] ==> s[0].value == PlusInfinity && s[1].value == MinusInfinity)
      && (values != [] ==>
            && Ascending(s)
            && s[0].value.x == s[0].value.x.Floor as real && s[1].value.x == s[1].value.x.Floor as real
            && (forall i :: 0 <= i < |values| ==> s[0].value.x <= values[i] <= s[1].value.x)
            && (exists i :: 0 <= i < |values| && values[i] < s[0].value.x + 1.0)
            && (exists i :: 0 <= i < |values| && s[1].value.x - 1.0 < values[i]))
  {
    if values != [] {
      var lo, hi := Min(values), Max(values);
      var ilo :| 0 <= ilo < |values| && values[ilo] == lo;
      var ihi :| 0 <= ihi < |values| && values[ihi] == hi;
      assert values[ilo] < Floor(lo) as real + 1.0;
      assert Ceil(hi) as real - 1.0 < values[ihi];
    }
  }

  /** The parsed years of the non-null attribute values of `fieldname`. */
  function NonNullYears(selection: seq<Feature>, fieldname: string, yearOf: Option<Value> -> int): seq<int> {
    var values := NonNullValues(selection, fieldname);
    seq(|values|, k requires 0 <= k < |values| => yearOf(Some(values[k])))
  }

  /**
   * The lease-expiry gradient as `createRendererVV_exp` writes it: the low
   * stop is the category at index 1 and the high stop the category at index
   * `years.length - 1` of the sorted unique non-1970 years, NaN when the index
   * is out of range.
   */
  function ExpiryStops(years: seq<int>): seq<Stop> {
    var categories := YearCategories(years);
    [ Stop(if 1 < |categories| then Finite(categories[1] as real) else NaN, LOW_COLOR),
      Stop(if 1 <= |years| && |years| - 1 < |categories| then Finite(categories[|years| - 1] as real) else NaN, HIGH_COLOR) ]
  }

  method CreateRendererVVExp(selection: seq<Feature>, fieldname: string, yearOf: Option<Value> -> int) returns (r: Renderer)
    ensures r == Continuous(fieldname, CreateSymbol(WHITE), DEFAULT_LABEL, ExpiryStops(NonNullYears(selection, fieldname, yearOf)))
  {
    var totalrange := CollectNonNull(selection, fieldname);
    var years := GenerateYears(totalrange, yearOf);
    assert years == NonNullYears(selection, fieldname, yearOf);
    var stops := YearStops(years);
    r := Continuous(fieldname, CreateSymbol(WHITE), DEFAULT_LABEL, stops);
  }

  /** `generateArrayOfYears`: the year of every collected value, in order. */
  method GenerateYears(totalrange: seq<Value>, yearOf: Option<Value> -> int) returns (years: seq<int>)
    ensures |years| == |totalrange|
    ensures forall m :: 0 <= m < |totalrange| ==> years[m] == yearOf(Some(totalrange[m]))
  {
    years := [];
    for k := 0 to |totalrange|
      invariant |years| == k
      invariant forall m :: 0 <= m < k ==> years[m] == yearOf(Some(totalrange[m]))
    {
      years := years + [yearOf(Some(totalrange[k]))];
    }
  }

  /** The two stops of `createRendererVV_exp`, read from the sorted unique years. */
  method YearStops(years: seq<int>) returns (stops: seq<Stop>)
    ensures stops == ExpiryStops(years)
  {
    var uniqueYears := YearCategories(years);
    var yearMax := if 1 <= |years| && |years| - 1 < |uniqueYears| then Finite(uniqueYears[|years| - 1] as real) else NaN;
    var yearMin := if 1 < |uniqueYears| then Finite(uniqueYears[1] as real) else NaN;
    stops := [Stop(yearMin, LOW_COLOR), Stop(yearMax, HIGH_COLOR)];
  }

  /** The categories are never more than the parsed years. */
  lemma CategoriesAtMostYears(years: seq<int>)
    ensures |YearCategories(years)| <= |years|
  {
    var u := OnlyUnique(years);
    var f := RemoveAll(u, SENTINEL_YEAR);
    assert |SortBy(f, YearKey)| == |f| <= |u| <= |years|;
  }

  /**
   * The high stop of the lease-expiry gradient is defined exactly when the
   * parsed years are non-empty, distinct and free of 1970, and is then the
   * latest year.
   */
  lemma ExpiryHighStop(years: seq<int>)
    ensures var high := ExpiryStops(years)[1].value; var c := YearCategories(years);
      && (high.Finite? <==> |years| >= 1 && Distinct(years) && SENTINEL_YEAR !in years)
      && (high.Finite? ==> forall i :: 0 <= i < |c| ==> c[i] as real <= high.x)
  {
    var c := YearCategories(years);
    CategoriesAtMostYears(years);
    CategoriesKeepAll(years);
    CategoriesAscending(years);
    LastIndexIsMax(c, |years|);
  }

  lemma LastIndexIsMax(c: seq<int>, n: nat)
    requires |c| <= n
    requires forall i, j :: 0 <= i < j < |c| ==> c[i] < c[j]
    ensures (1 <= n && n - 1 < |c|) <==> (n >= 1 && |c| == n)
    ensures 1 <= n && n - 1 < |c| ==> forall i :: 0 <= i < |c| ==> c[i] <= c[n - 1]
  {
    if 1 <= n && n - 1 < |c| {
      forall i | 0 <= i < |c| ensures c[i] <= c[n - 1] {
        if i < n - 1 {
          assert c[i] < c[n - 1];
        }
      }
    }
  }

  /**
   * The low stop of the lease-expiry gradient is defined exactly when there
   * are two categories, and is then later than the earliest one.
   */
  lemma ExpiryLowStop(years: seq<int>)
    ensures var low := ExpiryStops(years)[0].value; var c := YearCategories(years);
      && (low.Finite? <==> |c| >= 2)
      && (low.Finite? ==> c[0] as real < low.x)
  {
    var c := YearCategories(years);
    if |c| >= 2 {
      CategoriesAscending(years);
      assert c[0] < c[1];
    }
  }

  /**
   * The "highlight one bin" gradient: grey one unit below `min`, the colour
   * at `min` and at `max`, grey one unit above `max`, on a grey default.
   */
  function CreateRendererVVbar(min: real, max: real, color: Color, fieldname: string): (r: Renderer)
    ensures r.Continuous? && r.field == fieldname
    ensures r.defaultSymbol == CreateSymbol(DEFAULT_GREY) && r.defaultLabel == DEFAULT_LABEL
    ensures |r.stops| == 4 && forall i :: 0 <= i < 4 ==> r.stops[i].value.Finite?
    ensures r.stops[1].value.x == min && r.stops[2].value.x == max
    ensures r.stops[0].value.x == min - 1.0 && r.stops[3].value.x == max + 1.0
    ensures r.stops[0].color == DEFAULT_GREY && r.stops[1].color == color
    ensures r.stops[2].color == color && r.stops[3].color == DEFAULT_GREY
    ensures min <= max ==> Ascending(r.stops)
    ensures min < max ==> StopsStrictlyAscending(r.stops)
  {
    Continuous(fieldname, CreateSymbol(DEFAULT_GREY), DEFAULT_LABEL,
      [ Stop(Finite(min - 1.0), DEFAULT_GREY), Stop(Finite(min), color),
        Stop(Finite(max), color), Stop(Finite(max + 1.0), DEFAULT_GREY) ])
  }

  /** The "highlight one year" gradient: grey a year before and after, the colour only at `year`. */
  function CreateRendererVVbarExp(year: real, color: Color, fieldname: string): (r: Renderer)
    ensures r.Continuous? && r.field == fieldname
    ensures r.defaultSymbol == CreateSymbol(DEFAULT_GREY) && r.defaultLabel == DEFAULT_LABEL
    ensures |r.stops| == 3 && StopsStrictlyAscending(r.stops)
    ensures r.stops[0].value.x == year - 1.0 && r.stops[1].value.x == year && r.stops[2].value.x == year + 1.0
    ensures r.stops[1].color == color
    ensures color != DEFAULT_GREY ==> forall i :: 0 <= i < 3 ==> (r.stops[i].color == color <==> i == 1)
  {
    Continuous(fieldname, CreateSymbol(DEFAULT_GREY), DEFAULT_LABEL,
      [ Stop(Finite(year - 1.0), DEFAULT_GREY), Stop(Finite(year), color), Stop(Finite(year + 1.0), DEFAULT_GREY) ])
  }
}
