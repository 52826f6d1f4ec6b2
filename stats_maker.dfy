/**
 * The statistics panel: the number of distinct units and buildings, the usage
 * and the tenancy with the most area, the total, largest and average area,
 * and the highest and average floor of a selection of building units.
 */
module StatsMaker {
  import opened Wrappers
  import opened JsValues
  import opened ArrayUtil

  /** One entry of the usage or tenancy breakdown: a category, how many units have it, their summed area. */
  datatype CategoryArea = CategoryArea(category: string, count: nat, area: real)

  /**
   * The most common category: the placeholder object (`{usage: "0ther"}` for
   * the usage breakdown, `{tenancy: "0ther"}` for the tenancy one), whose one
   * field is `name` here, or an entry of the breakdown.
   */
  datatype MostCommon = Placeholder(name: string) | Entry(entry: CategoryArea)

  /** The field names the statistics read from the settings. */
  datatype StatsFields = StatsFields(areaname: string, floorname: string, buildingIDname: string, buildingname: string)

  /**
   * The panel's figures; `numberofBuildings` and `nextReview` are never
   * assigned and stay null. `nextExpiry` is not part of this model.
   */
  datatype Summary = Summary(
    numberofUnits: nat,
    numberofWholeBuildings: nat,
    numberofBuildings: Option<nat>,
    mostCommonUsage: MostCommon,
    mostCommonTenancy: MostCommon,
    averageArea: Number,
    totalArea: int,
    areaMax: Number,
    floorMax: Number,
    averageFloor: Number,
    nextReview: Option<int>)

  /** The label of the placeholder; its first character is the digit zero. */
  const OTHER: string := "0ther"

  function AreaOf(e: CategoryArea): real { e.area }

  function AsReal(x: real): real { x }

  /** `isNaN(a) ? 0 : a`: a floor value with NaN read as 0. */
  function NanAsZero(v: Option<real>): real { v.GetOr(0.0) }

  /** A floor value as a number: NaN for a string that does not parse. */
  function AsNumber(v: Option<real>): Number {
    match v
    case Some(x) => Finite(x)
    case None => NaN
  }

  /** `Math.round(sum / d)`: with `d` zero the quotient is infinite, or NaN for 0 / 0. */
  function RoundedQuotient(sum: real, d: int): Number {
    if d == 0 then (if sum > 0.0 then PlusInfinity else if sum < 0.0 then MinusInfinity else NaN)
    else Finite(Round(sum / d as real) as real)
  }

  // ---------------------------------------------------------------- most common category

  /**
   * The most common category of a breakdown: the placeholder when its areas
   * sum to 0 (an empty breakdown included), else the entry of largest area,
   * the last one among equals.
   */
  function MostCommonOf(data: seq<CategoryArea>): MostCommon {
    if SumBy(data, AreaOf) == 0.0 then Placeholder(OTHER) else Entry(data[LastMaxIndex(data, AreaOf)])
  }

  /** Sort the breakdown by area, add the areas up, and take the last entry unless the sum is 0. */
  method PickMostCommon(data: seq<CategoryArea>) returns (r: MostCommon)
    ensures r == MostCommonOf(data)
  {
    var sorted := SortBy(data, AreaOf);
    var areaSum := 0.0;
    for i := 0 to |sorted|
      invariant areaSum == SumBy(sorted[..i], AreaOf)
    {
      SumByStep(sorted, i, AreaOf);
      areaSum := areaSum + sorted[i].area;
    }
    assert sorted[..|sorted|] == sorted;
    SumBySortBy(data, AreaOf, AreaOf);
    if areaSum == 0.0 {
      r := Placeholder(OTHER);
    } else {
      LastOfSortBy(data, AreaOf);
      r := Entry(sorted[|sorted| - 1]);
    }
  }

  /**
   * The placeholder comes exactly when the areas sum to 0; otherwise the
   * result is an entry of the breakdown whose area no entry exceeds and
   * every later entry falls short of.
   */
  lemma MostCommonIsLargest(data: seq<CategoryArea>)
    ensures MostCommonOf(data).Placeholder? <==> SumBy(data, AreaOf) == 0.0
    ensures MostCommonOf(data).Placeholder? ==> MostCommonOf(data).name == OTHER
    ensures MostCommonOf(data).Entry? ==>
      exists k :: 0 <= k < |data| && data[k] == MostCommonOf(data).entry
        && (forall i :: 0 <= i < |data| ==> data[i].area <= data[k].area)
        && (forall i :: k < i < |data| ==> data[i].area < data[k].area)
  {
    if SumBy(data, AreaOf) != 0.0 {
      var k := LastMaxIndex(data, AreaOf);
      assert forall i :: 0 <= i < |data| ==> AreaOf(data[i]) <= AreaOf(data[k]);
    }
  }

  /** An empty breakdown, or one whose areas are all 0, gives the placeholder. */
  lemma NoAreaGivesPlaceholder(data: seq<CategoryArea>)
    requires forall i :: 0 <= i < |data| ==> data[i].area == 0.0
    ensures MostCommonOf(data) == Placeholder(OTHER)
  {
    SumOfZeros(data);
  }

  lemma {:induction false} SumOfZeros(data: seq<CategoryArea>)
    requires forall i :: 0 <= i < |data| ==> data[i].area == 0.0
    ensures SumBy(data, AreaOf) == 0.0
    decreases |data|
  {
    if data != [] {
      SumOfZeros(data[..|data| - 1]);
    }
  }

  // ---------------------------------------------------------------- areas

  /** `Math.round` of the sum of the areas; with no areas the null total rounds to 0. */
  function TotalArea(areas: seq<real>): int {
    Round(SumBy(areas, AsReal))
  }

  /** `Math.round` of the largest area; NaN (`Math.round(undefined)`) when there is none. */
  function AreaMax(areas: seq<real>): Number {
    if areas == [] then NaN else Finite(Round(Max(areas)) as real)
  }

  /** The single area itself, unrounded, when there is one; otherwise the sum over one less than the count, rounded. */
  function AverageOf(areas: seq<real>): Number {
    if |areas| == 1 then Finite(areas[0]) else Finite(Round(SumBy(areas, AsReal) / (|areas| - 1) as real) as real)
  }

  /** The area figures, computed as the source does on the sorted areas. */
  method AreaStats(areaData: seq<real>) returns (areaMax: Number, totalArea: int, averageArea: Number)
    ensures areaMax == AreaMax(areaData)
    ensures totalArea == TotalArea(areaData)
    ensures averageArea == AverageOf(areaData)
  {
    var sorted := SortBy(areaData, AsReal);
    SumBySortBy(areaData, AsReal, AsReal);
    if |sorted| == 0 {
      areaMax := NaN;
    } else {
      SortedLastIsMax(areaData);
      areaMax := Finite(Round(sorted[|sorted| - 1]) as real);
    }
    var total := AddUp(sorted);
    totalArea := Round(total.GetOr(0.0));
    var areaSum := SumBy(sorted, AsReal);
    averageArea := RoundedQuotient(areaSum, |sorted| - 1);
    if |sorted| == 1 {
      averageArea := Finite(sorted[0]);
    }
  }

  /** `chartData.totalArea += areaData[i]` from null: null when there is nothing to add, else the sum. */
  method AddUp(areaData: seq<real>) returns (total: Option<real>)
    ensures total == if areaData == [] then None else Some(SumBy(areaData, AsReal))
  {
    total := None;
    for i := 0 to |areaData|
      invariant total == if i == 0 then None else Some(SumBy(areaData[..i], AsReal))
    {
      SumByStep(areaData, i, AsReal);
      assert areaData[..0] == [];
      total := Some(total.GetOr(0.0) + areaData[i]);
    }
    assert areaData[..|areaData|] == areaData;
  }

  /** The last of the sorted areas is the largest area. */
  lemma SortedLastIsMax(areas: seq<real>)
    requires areas != []
    ensures SortBy(areas, AsReal)[|areas| - 1] == Max(areas)
  {
    LastOfSortBy(areas, AsReal);
    var k := LastMaxIndex(areas, AsReal);
    var m := Max(areas);
    var j :| 0 <= j < |areas| && areas[j] == m;
    assert AsReal(areas[j]) <= AsReal(areas[k]);
  }

  /** With areas that are not negative, the largest one rounds to at most the total. */
  lemma AreaMaxAtMostTotal(areas: seq<real>)
    requires areas != [] && forall i :: 0 <= i < |areas| ==> areas[i] >= 0.0
    ensures AreaMax(areas).Finite? && AreaMax(areas).x <= TotalArea(areas) as real
  {
    var m := Max(areas);
    var j :| 0 <= j < |areas| && areas[j] == m;
    ElementAtMostSum(areas, j);
    RoundMonotone(m, SumBy(areas, AsReal));
  }

  lemma {:induction false} ElementAtMostSum(s: seq<real>, j: nat)
    requires j < |s| && forall i :: 0 <= i < |s| ==> s[i] >= 0.0
    ensures s[j] <= SumBy(s, AsReal)
    decreases |s|
  {
    var init := s[..|s| - 1];
    NonNegativeSum(init);
    if j < |s| - 1 {
      ElementAtMostSum(init, j);
    }
  }

  lemma {:induction false} NonNegativeSum(s: seq<real>)
    requires forall i :: 0 <= i < |s| ==> s[i] >= 0.0
    ensures SumBy(s, AsReal) >= 0.0
    decreases |s|
  {
    if s != [] {
      NonNegativeSum(s[..|s| - 1]);
    }
  }

  lemma RoundMonotone(x: real, y: real)
    requires x <= y
    ensures Round(x) <= Round(y)
  {
  }

  /** With exactly two areas the "average" is their rounded total, not their mean. */
  lemma AverageOfTwo(a: real, b: real)
    ensures AverageOf([a, b]) == Finite(TotalArea([a, b]) as real)
  {
    assert [a, b][..1] == [a] && [a][..0] == [];
  }

  /** Areas of 10 and 20 give an average of 30 and a total of 30. */
  lemma AverageExample()
    ensures AverageOf([10.0, 20.0]) == Finite(30.0) && TotalArea([10.0, 20.0]) == 30
  {
    AverageOfTwo(10.0, 20.0);
    assert [10.0, 20.0][..1] == [10.0] && [10.0][..0] == [];
    assert Round(30.0) == 30;
  }

  // ---------------------------------------------------------------- floors

  /**
   * What the floor loop pushes for one attribute: nothing for null, the number
   * itself, or `Number(s)` for a string (None standing for NaN).
   */
  function FloorValue(v: Option<Value>): Option<Option<real>> {
    match v
    case None => None
    case Some(Num(x)) => Some(Some(x))
    case Some(Text(s)) => Some(ParseNumber(s))
  }

  /** The floor values of the records that have one, in order. */
  function FloorValues(data: seq<Feature>, floorname: string): (r: seq<Option<real>>)
    ensures |r| <= |data|
    decreases |data|
  {
    if data == [] then []
    else
      var init := FloorValues(data[..|data| - 1], floorname);
      match FloorValue(Attribute(data[|data| - 1], floorname))
      case None => init
      case Some(v) => init + [v]
  }

  method CollectFloors(data: seq<Feature>, floorname: string) returns (floorData: seq<Option<real>>)
    ensures floorData == FloorValues(data, floorname)
  {
    floorData := [];
    for j := 0 to |data|
      invariant floorData == FloorValues(data[..j], floorname)
    {
      assert data[..j + 1][..j] == data[..j];
      var value := Attribute(data[j], floorname);
      if value.Some? && !value.value.Text? {
        floorData := floorData + [Some(value.value.n)];
      }
      if value.Some? && value.value.Text? {
        floorData := floorData + [ParseNumber(value.value.s)];
      }
    }
    assert data[..|data|] == data;
  }

  /**
   * `Math.round` of the last floor after the sort that reads NaN as 0: the
   * floor at the last index of the largest NaN-as-0 key, which is NaN when
   * that floor is; NaN when there is no floor at all.
   */
  function FloorMax(floors: seq<Option<real>>): Number {
    if floors == [] then NaN else RoundOrNaN(floors[LastMaxIndex(floors, NanAsZero)])
  }

  /** The single floor itself when there is one; otherwise the NaN-as-0 sum over one less than the count, rounded. */
  function AverageFloor(floors: seq<Option<real>>): Number {
    if |floors| == 1 then AsNumber(floors[0])
    else Finite(Round(SumBy(floors, NanAsZero) / (|floors| - 1) as real) as real)
  }

  /** The floor figures, computed as the source does on the sorted floors. */
  method FloorStats(floorData: seq<Option<real>>) returns (floorMax: Number, averageFloor: Number)
    ensures floorMax == FloorMax(floorData)
    ensures averageFloor == AverageFloor(floorData)
  {
    var sorted := SortBy(floorData, NanAsZero);
    if |sorted| == 0 {
      floorMax := NaN;
    } else {
      LastOfSortBy(floorData, NanAsZero);
      floorMax := RoundOrNaN(sorted[|sorted| - 1]);
    }
    SumBySortBy(floorData, NanAsZero, NanAsZero);
    var floorSum := SumBy(sorted, NanAsZero);
    averageFloor := RoundedQuotient(floorSum, |sorted| - 1);
    if |sorted| == 1 {
      averageFloor := AsNumber(sorted[0]);
    }
  }

  /** When every floor is a number, the highest floor is a floor no other exceeds, rounded. */
  lemma FloorMaxOfNumbers(floors: seq<Option<real>>)
    requires floors != [] && forall i :: 0 <= i < |floors| ==> floors[i].Some?
    ensures exists k :: (0 <= k < |floors|
      && FloorMax(floors) == Finite(Round(floors[k].value) as real)
      && forall i :: 0 <= i < |floors| ==> floors[i].value <= floors[k].value)
  {
    var k := LastMaxIndex(floors, NanAsZero);
    assert forall i :: 0 <= i < |floors| ==> NanAsZero(floors[i]) <= NanAsZero(floors[k]);
  }

  /** A floor that does not parse sorts as 0 and hides negative floors: floors "-1" and "x" give NaN. */
  lemma FloorMaxNaNExample()
    ensures FloorValue(Some(Text("-1"))) == Some(Some(-1.0))
    ensures FloorValue(Some(Text("x"))) == Some(None)
    ensures FloorMax([Some(-1.0), None]) == NaN
  {
    assert Radix.DigitValue('1') == 1 && Radix.DigitValue('x') == 16;
    assert IndexOf("1", '.') == 1 && "1"[..1] == "1";
    assert Radix.DigitsValue("1", 10) == 1 by {
      assert "1"[..0] == [];
    }
    assert IndexOf("x", '.') == 1 && "x"[..1] == "x";
    assert !Radix.IsDigitString("x", 10);
  }

  /** NaN floors add 0 to the sum but still count: floors 4, "x" and 2 average to 6 / 2 = 3. */
  lemma AverageFloorExample()
    ensures AverageFloor([Some(4.0), None, Some(2.0)]) == Finite(3.0)
  {
    var f: seq<Option<real>> := [Some(4.0), None, Some(2.0)];
    var e: seq<Option<real>> := [];
    assert f[..2] == [Some(4.0), None] && f[..2][..1] == [Some(4.0)] && f[..2][..1][..0] == e;
    assert SumBy(f[..2][..1], NanAsZero) == 4.0;
    assert SumBy(f[..2], NanAsZero) == 4.0;
    assert SumBy(f, NanAsZero) == 6.0;
    assert Round(3.0) == 3;
  }

  // ---------------------------------------------------------------- distinct counts

  /** How many distinct non-null values a field takes over the records. */
  function DistinctCount(data: seq<Feature>, field: string): nat {
    |set v | v in NonNullValues(data, field)|
  }

  /** `buildingData.filter(onlyUnique).length` counts the distinct non-null values. */
  lemma UniqueLength(data: seq<Feature>, field: string)
    ensures |OnlyUnique(NonNullValues(data, field))| == DistinctCount(data, field)
  {
    var s := NonNullValues(data, field);
    var u := OnlyUnique(s);
    DistinctCardinality(u);
    assert (set v | v in u) == (set v | v in s);
  }

  /** The distinct count is at most the number of records, and equals it when all values are present and distinct. */
  lemma DistinctCountBounds(data: seq<Feature>, field: string)
    ensures DistinctCount(data, field) <= |data|
    ensures DistinctCount(data, field) == |NonNullValues(data, field)| <==> Distinct(NonNullValues(data, field))
  {
    var s := NonNullValues(data, field);
    UniqueLength(data, field);
    OnlyUniqueKeepsAll(s);
  }

  // ---------------------------------------------------------------- the panel

  /**
   * `createChartData`: the figures of the panel. The usage and tenancy
   * breakdowns are inputs, as another module computes them.
   */
  method CreateStats(data: seq<Feature>, usageData: seq<CategoryArea>, tenancyData: seq<CategoryArea>, f: StatsFields)
    returns (s: Summary)
    ensures s.numberofUnits == DistinctCount(data, f.buildingIDname)
    ensures s.numberofWholeBuildings == DistinctCount(data, f.buildingname)
    ensures s.numberofBuildings == None && s.nextReview == None
    ensures s.mostCommonUsage == MostCommonOf(usageData) && s.mostCommonTenancy == MostCommonOf(tenancyData)
    ensures var areas := NumericValues(data, f.areaname);
      s.areaMax == AreaMax(areas) && s.totalArea == TotalArea(areas) && s.averageArea == AverageOf(areas)
    ensures var floors := FloorValues(data, f.floorname);
      s.floorMax == FloorMax(floors) && s.averageFloor == AverageFloor(floors)
  {
    var numberofUnits := |data|;
    var mostCommonUsage := PickMostCommon(usageData);
    var mostCommonTenancy := PickMostCommon(tenancyData);
    var areaData := CollectNumeric(data, f.areaname);
    var areaMax, totalArea, averageArea := AreaStats(areaData);
    var floorData := CollectFloors(data, f.floorname);
    var floorMax, averageFloor := FloorStats(floorData);
    var buildingData := CollectNonNull(data, f.buildingIDname);
    numberofUnits := |OnlyUnique(buildingData)|;
    UniqueLength(data, f.buildingIDname);
    var enitrebuildingData := CollectNonNull(data, f.buildingname);
    var numberofWholeBuildings := |OnlyUnique(enitrebuildingData)|;
    UniqueLength(data, f.buildingname);
    s := Summary(numberofUnits, numberofWholeBuildings, None, mostCommonUsage, mostCommonTenancy,
                 averageArea, totalArea, areaMax, floorMax, averageFloor, None);
  }
}
