/**
 * The bar chart data: area values bucketed into bins of a rounded width,
 * and lease-expiry years counted per distinct year, each bar with a colour
 * from a fixed ramp; and the conversion of RGB triples to `#rrggbb`.
 */
module BarMaker {
  import opened Wrappers
  import opened JsValues
  import opened ArrayUtil
  import opened LeaseYears
  import Radix
  import ApplyRenderer

  const TEN_COLORS: seq<string> :=
    ["#E4002B", "#A6192B", "#9BD3DD", "#D9ECEB", "#0093B2", "#56AAC6", "#9EC8DB", "#003865", "#526180", "#001933"]
  const SIX_COLORS: seq<string> := ["#E4002B", "#A6192B", "#9BD3DD", "#D9ECEB", "#0093B2", "#001933"]

  /** The colour ramp chosen for a number of bins `binsNew`. */
  function Ramp(binsNew: real): seq<string> {
    if binsNew > 9.0 then TEN_COLORS else SIX_COLORS
  }

  /** `color[i]`, or `undefined` past the end of the ramp. */
  function RampColor(ramp: seq<string>, i: nat): Option<string> {
    if i < |ramp| then Some(ramp[i]) else None
  }

  /** An area as the comparisons and the arithmetic see it: null is 0. */
  function AreaOperand(v: Option<real>): real {
    v.GetOr(0.0)
  }

  /** The area attribute of every feature, in order. */
  function AreaValues(selection: seq<Feature>, areaname: string): (r: seq<real>)
    ensures |r| == |selection|
  {
    seq(|selection|, j requires 0 <= j < |selection| => AreaOperand(NumericAttribute(selection[j], areaname)))
  }

  /** The rounding unit of the width tier that a raw width falls into. */
  function Unit(raw: real): nat {
    if raw > 1000.0 then 500
    else if raw < 1000.0 && raw > 500.0 then 250
    else if raw < 500.0 && raw > 200.0 then 100
    else if raw < 200.0 && raw > 100.0 then 50
    else if raw < 100.0 && raw > 50.0 then 10
    else if raw < 50.0 && raw > 10.0 then 5
    else 1
  }

  /** `r` is the multiple of `u` nearest to `x`, a tie going up. */
  predicate IsNearestMultiple(r: int, x: real, u: nat)
    requires u > 0
  {
    r % u == 0 && x - u as real / 2.0 < r as real <= x + u as real / 2.0
  }

  /** The kernel width snapped to the unit of its tier. */
  function SnapWidth(raw: real): (w: int)
    ensures raw >= 0.5 ==> w > 0
    ensures raw < 0.5 ==> w <= 0
  {
    if raw > 1000.0 then 500 * Round(raw / 500.0)
    else if raw < 1000.0 && raw > 500.0 then 250 * Round(raw / 250.0)
    else if raw < 500.0 && raw > 200.0 then 100 * Round(raw / 100.0)
    else if raw < 200.0 && raw > 100.0 then 50 * Round(raw / 50.0)
    else if raw < 100.0 && raw > 50.0 then 10 * Round(raw / 10.0)
    else if raw < 50.0 && raw > 10.0 then 5 * Round(raw / 5.0)
    else Round(raw)
  }

  /** `u * Math.round(raw / u)` is the multiple of `u` nearest to `raw`, for each unit of a tier. */
  lemma NearestRound(raw: real, u: nat)
    requires u == 500 || u == 250 || u == 100 || u == 50 || u == 10 || u == 5
    ensures IsNearestMultiple(u * Round(raw / u as real), raw, u)
  {
  }

  /** The snapped width is the multiple of the tier's unit nearest to the raw width. */
  lemma SnapWidthNearest(raw: real)
    ensures IsNearestMultiple(SnapWidth(raw), raw, Unit(raw))
  {
    if Unit(raw) > 1 {
      NearestRound(raw, Unit(raw));
    }
  }

  /** The low end of the range: the minimum, or 0 when the minimum rounds to 1. */
  function LowEnd(values: seq<real>): real
    requires values != []
  {
    if Round(Min(values)) == 1 then 0.0 else Min(values)
  }

  /** `bins`, lowered to `selection.length - 1` when it exceeds the number of features. */
  function ClampBins(bins: int, n: nat): int {
    if bins > n then n - 1 else bins
  }

  /**
   * How the bins are laid out: the first bin starts at `start`, each is
   * `width` wide, and `binsNew` is `(max - start) / width`. NoBins stands for
   * the paths where the width or the start is NaN or infinite, which make
   * no bin at all.
   */
  datatype BinPlan = NoBins | Plan(start: real, width: int, binsNew: real)

  /** The plan for a range from `min` to `max` split into `b` bins. */
  function PlanRange(max: real, min: real, b: int): BinPlan {
    if b == 0 then NoBins
    else
      var w := SnapWidth((max - min) / b as real);
      if w == 0 then NoBins
      else
        var start := (w * Round(min / w as real)) as real;
        Plan(start, w, (max - start) / w as real)
  }

  function PlanBins(values: seq<real>, bins: int): BinPlan {
    if values == [] then NoBins
    else PlanRange(Max(values), LowEnd(values), ClampBins(bins, |values|))
  }

  /** How often `for (n = 0; n < binsNew; n++)` runs. */
  function BinCount(binsNew: real): (r: nat)
    ensures binsNew > 0.0 ==> r as real - 1.0 < binsNew <= r as real
    ensures binsNew <= 0.0 ==> r == 0
  {
    if binsNew <= 0.0 then 0 else Ceil(binsNew)
  }

  datatype Range = Range(min: real, max: real)

  /** A bar: its label, how many values it holds, its range and its colour. */
  datatype Bin = Bin(kernel: BinLabel, count: nat, subdata: Range, color: Option<string>)

  /** Where bin `i` starts: `start`, advanced by `width` once per bin before it. */
  function BinStart(start: real, width: int, i: nat): real
    decreases i
  {
    if i == 0 then start else BinStart(start, width, i - 1) + width as real
  }

  /** The range of bin `i`. */
  function KernelRange(start: real, width: int, i: nat): Range {
    Range(BinStart(start, width, i), BinStart(start, width, i) + width as real)
  }

  /** Bin `i` starts `i` widths after `start`. */
  lemma {:induction false} BinStartValue(start: real, width: int, i: nat)
    ensures BinStart(start, width, i) == start + i as real * width as real
    decreases i
  {
    if i > 0 {
      BinStartValue(start, width, i - 1);
    }
  }

  /**
   * A bar's label, kept as the two rounded bounds it is written from;
   * LabelText gives the text the chart shows.
   */
  datatype BinLabel = BinLabel(low: int, high: int)

  /** The label of a range: its bounds rounded with `Math.round`. */
  function Label(r: Range): BinLabel {
    BinLabel(Round(r.min), Round(r.max))
  }

  /** `Math.round(min) + "m2 - " + Math.round(max) + "m2"`. */
  function LabelText(l: BinLabel): string {
    Radix.IntToString(l.low, 10) + "m2 - " + Radix.IntToString(l.high, 10) + "m2"
  }

  /** `v > r.min && v <= r.max`. */
  predicate InRange(v: real, r: Range) {
    r.min < v <= r.max
  }

  /** How many of `values` lie in the half-open range. */
  function CountIn(values: seq<real>, r: Range): (c: nat)
    ensures c <= |values|
    decreases |values|
  {
    if values == [] then 0
    else CountIn(values[..|values| - 1], r) + (if InRange(values[|values| - 1], r) then 1 else 0)
  }

  /** A bin before any value is counted. */
  function EmptyBin(r: Range, ramp: seq<string>, i: nat): Bin {
    Bin(Label(r), 0, r, RampColor(ramp, i))
  }

  /** Bin `i` once every value in its range has been counted. */
  function CountedBin(values: seq<real>, r: Range, ramp: seq<string>, i: nat): Bin {
    EmptyBin(r, ramp, i).(count := CountIn(values, r))
  }

  /** The first `k` bins of a layout, each holding the values in its range. */
  function BinsUpTo(values: seq<real>, start: real, width: int, ramp: seq<string>, k: nat): (r: seq<Bin>)
    ensures |r| == k
    decreases k
  {
    if k == 0 then []
    else BinsUpTo(values, start, width, ramp, k - 1) + [CountedBin(values, KernelRange(start, width, k - 1), ramp, k - 1)]
  }

  /** The bins of a plan, each holding the values in its range. */
  function PlannedBins(values: seq<real>, start: real, width: int, binsNew: real): (r: seq<Bin>)
    ensures |r| == BinCount(binsNew)
  {
    BinsUpTo(values, start, width, Ramp(binsNew), BinCount(binsNew))
  }

  /** Bin `i` of a layout is the counted bin of the `i`-th range. */
  lemma {:induction false} BinsUpToAt(values: seq<real>, start: real, width: int, ramp: seq<string>, k: nat, i: nat)
    requires i < k
    ensures BinsUpTo(values, start, width, ramp, k)[i] == CountedBin(values, KernelRange(start, width, i), ramp, i)
    decreases k
  {
    if i < k - 1 {
      BinsUpToAt(values, start, width, ramp, k - 1, i);
    }
  }

  /** The bins a plan makes for these values. */
  function ChartOfPlan(values: seq<real>, plan: BinPlan): seq<Bin> {
    match plan
    case NoBins => []
    case Plan(start, width, binsNew) => PlannedBins(values, start, width, binsNew)
  }

  /** The chart data `createChartData` returns for these area values. */
  function ChartData(values: seq<real>, bins: int): seq<Bin> {
    ChartOfPlan(values, PlanBins(values, bins))
  }

  /** `maxIterate`: the largest value, or `undefined` for none. */
  method MaxIterate(arr: seq<real>) returns (max: Option<real>)
    ensures arr == [] ==> max == None
    ensures arr != [] ==> max == Some(Max(arr))
  {
    if arr == [] {
      return None;
    }
    var m := arr[0];
    for i := 0 to |arr|
      invariant m in arr
      invariant forall k :: 0 <= k < i ==> arr[k] <= m
    {
      if arr[i] > m {
        m := arr[i];
      }
    }
    assert Max(arr) <= m;
    max := Some(m);
  }

  /** `minIterate`: starting from `max`, the smallest value below it; `undefined` stays `undefined`. */
  method MinIterate(arr: seq<real>, max: Option<real>) returns (min: Option<real>)
    ensures max == None ==> min == None
    ensures max.Some? ==> min.Some? && min.value <= max.value
    ensures max.Some? ==> forall k :: 0 <= k < |arr| ==> min.value <= arr[k]
    ensures max.Some? ==> min.value == max.value || min.value in arr
  {
    if max == None {
      return None;
    }
    var m := max.value;
    for i := 0 to |arr|
      invariant m <= max.value && (m == max.value || m in arr)
      invariant forall k :: 0 <= k < i ==> m <= arr[k]
    {
      if arr[i] < m {
        m := arr[i];
      }
    }
    min := Some(m);
  }

  method CreateChartData(selection: seq<Feature>, areaname: string, bins: int) returns (chartData: seq<Bin>)
    ensures chartData == ChartData(AreaValues(selection, areaname), bins)
  {
    var b := bins;
    if b > |selection| {
      b := |selection| - 1;
    }
    var totalrange := CollectAreas(selection, areaname);
    var max := MaxIterate(totalrange);
    var min := MinIterate(totalrange, max);
    if max == None {
      // max and min are undefined, so the width and the start are NaN
      assert ChartData(totalrange, bins) == [];
      return [];
    }
    var lo := min.value;
    assert lo == Min(totalrange);
    if Round(lo) == 1 {
      lo := 0.0;
    }
    assert lo == LowEnd(totalrange);
    chartData := BinValues(totalrange, max.value, lo, b);
  }

  /** The part of `createChartData` from the kernel width on, for the range `min` to `max` and `b` bins. */
  method BinValues(totalrange: seq<real>, max: real, min: real, b: int) returns (chartData: seq<Bin>)
    ensures chartData == ChartOfPlan(totalrange, PlanRange(max, min, b))
  {
    if b == 0 {
      // the width is Infinity or NaN, so the start is NaN
      return [];
    }
    var raw := (max - min) / b as real;
    var kernelwidth := SnapWidth(raw);
    if kernelwidth == 0 {
      // the start is 0 * Math.round(min / 0), which is NaN
      return [];
    }
    var lo := (kernelwidth * Round(min / kernelwidth as real)) as real;
    var start := lo;
    var binsNew := (max - lo) / kernelwidth as real;
    PlanRangeSteps(max, min, b, raw, kernelwidth, start, binsNew);
    var kernel := MakeKernel(start, kernelwidth, binsNew);
    var color := if binsNew > 9.0 then TEN_COLORS else SIX_COLORS;
    chartData := LabelBins(kernel, color);
    chartData := CountValues(totalrange, kernel, chartData);
    forall i | 0 <= i < |chartData|
      ensures chartData[i] == PlannedBins(totalrange, start, kernelwidth, binsNew)[i]
    {
      BinsUpToAt(totalrange, start, kernelwidth, color, |chartData|, i);
    }
    assert chartData == PlannedBins(totalrange, start, kernelwidth, binsNew);
  }

  /** `PlanRange` unfolded into the steps `createChartData` takes. */
  lemma PlanRangeSteps(max: real, min: real, b: int, raw: real, w: int, start: real, binsNew: real)
    requires b != 0 && raw == (max - min) / b as real && w == SnapWidth(raw) && w != 0
    requires start == (w * Round(min / w as real)) as real && binsNew == (max - start) / w as real
    ensures PlanRange(max, min, b) == Plan(start, w, binsNew)
  {
  }

  /** The loop of `createChartData` that reads the area of every feature. */
  method CollectAreas(selection: seq<Feature>, areaname: string) returns (totalrange: seq<real>)
    ensures totalrange == AreaValues(selection, areaname)
  {
    totalrange := [];
    for j := 0 to |selection|
      invariant |totalrange| == j
      invariant forall k :: 0 <= k < j ==> totalrange[k] == AreaOperand(NumericAttribute(selection[k], areaname))
    {
      totalrange := totalrange + [AreaOperand(NumericAttribute(selection[j], areaname))];
    }
  }

  /** The loop of `createChartData` that makes one empty, labelled and coloured bin per range. */
  method LabelBins(kernel: seq<Range>, color: seq<string>) returns (chartData: seq<Bin>)
    ensures |chartData| == |kernel|
    ensures forall m :: 0 <= m < |kernel| ==> chartData[m] == EmptyBin(kernel[m], color, m)
  {
    chartData := [];
    for i := 0 to |kernel|
      invariant |chartData| == i
      invariant forall m :: 0 <= m < i ==> chartData[m] == EmptyBin(kernel[m], color, m)
    {
      chartData := chartData + [EmptyBin(kernel[i], color, i)];
    }
  }

  /** The loop of `createChartData` that sets up the bins' ranges. */
  method MakeKernel(start: real, width: int, binsNew: real) returns (kernel: seq<Range>)
    ensures |kernel| == BinCount(binsNew)
    ensures forall i :: 0 <= i < |kernel| ==> kernel[i] == KernelRange(start, width, i)
  {
    kernel := [];
    var min := start;
    var n := 0;
    while (n as real) < binsNew
      invariant n <= BinCount(binsNew)
      invariant |kernel| == n
      invariant min == KernelRange(start, width, n).min
      invariant forall i :: 0 <= i < n ==> kernel[i] == KernelRange(start, width, i)
      decreases BinCount(binsNew) - n
    {
      kernel := kernel + [Range(min, min + width as real)];
      min := min + width as real;
      n := n + 1;
    }
  }

  /** The counting loops of `createChartData`: each bin gains one for every value in its range. */
  method CountValues(totalrange: seq<real>, kernel: seq<Range>, empty: seq<Bin>) returns (chartData: seq<Bin>)
    requires |empty| == |kernel|
    requires forall m :: 0 <= m < |kernel| ==> empty[m].count == 0
    ensures |chartData| == |kernel|
    ensures forall m :: 0 <= m < |kernel| ==> chartData[m] == empty[m].(count := CountIn(totalrange, kernel[m]))
  {
    chartData := empty;
    for k := 0 to |totalrange|
      invariant |chartData| == |kernel|
      invariant forall m :: 0 <= m < |kernel| ==> chartData[m] == empty[m].(count := CountIn(totalrange[..k], kernel[m]))
    {
      assert totalrange[..k + 1][..k] == totalrange[..k];
      for m := 0 to |kernel|
        invariant |chartData| == |kernel|
        invariant forall i :: 0 <= i < m ==> chartData[i] == empty[i].(count := CountIn(totalrange[..k + 1], kernel[i]))
        invariant forall i :: m <= i < |kernel| ==> chartData[i] == empty[i].(count := CountIn(totalrange[..k], kernel[i]))
      {
        if totalrange[k] > kernel[m].min && totalrange[k] <= kernel[m].max {
          chartData := chartData[m := chartData[m].(count := chartData[m].count + 1)];
        }
      }
    }
    assert totalrange[..|totalrange|] == totalrange;
  }

  /** `a < b` survives multiplying by a positive factor. */
  lemma MulStrict(a: real, b: real, c: real)
    requires a < b && c > 0.0
    ensures a * c < b * c
  {
    assert b * c - a * c == (b - a) * c;
  }

  /** The same for `a <= b`. */
  lemma MulWeak(a: real, b: real, c: real)
    requires a <= b && c > 0.0
    ensures a * c <= b * c
  {
    assert b * c - a * c == (b - a) * c;
  }

  /**
   * The shape of a plan: it exists only for values and a non-zero width; a
   * positive number of bins gives a positive width; the first bin starts at
   * a multiple of the width, the one nearest to the low end.
   */
  lemma PlanShape(values: seq<real>, bins: int)
    ensures var p := PlanBins(values, bins);
      && (p.Plan? ==> values != [] && p.width != 0)
      && (p.Plan? ==> p.start == p.start.Floor as real && p.start.Floor % p.width == 0)
      && (p.Plan? && bins >= 1 ==> p.width > 0)
      && (p.Plan? && p.width > 0 ==>
            LowEnd(values) - p.width as real / 2.0 < p.start <= LowEnd(values) + p.width as real / 2.0)
  {
    if values != [] {
      var b := ClampBins(bins, |values|);
      var max, low := Max(values), LowEnd(values);
      assert bins >= 1 ==> b >= 0;
      assert max >= Min(values);
      assert PlanBins(values, bins) == PlanRange(max, low, b);
      RangePlanShape(max, low, b);
    }
  }

  lemma RangePlanShape(max: real, min: real, b: int)
    requires max >= min
    ensures var p := PlanRange(max, min, b);
      && (p.Plan? ==> p.width != 0)
      && (p.Plan? ==> p.start == p.start.Floor as real && p.start.Floor % p.width == 0)
      && (p.Plan? && b >= 0 ==> p.width > 0)
      && (p.Plan? && p.width > 0 ==> min - p.width as real / 2.0 < p.start <= min + p.width as real / 2.0)
  {
    if b != 0 {
      var raw := (max - min) / b as real;
      var w := SnapWidth(raw);
      if w != 0 {
        var k := Round(min / w as real);
        var start := (w * k) as real;
        var binsNew := (max - start) / w as real;
        PlanRangeSteps(max, min, b, raw, w, start, binsNew);
        MultipleOf(w, k);
        if b > 0 {
          MulWeak(0.0, raw, b as real);
        }
        if w > 0 {
          SnappedStart(min, w);
        }
      } else {
        assert PlanRange(max, min, b) == NoBins;
      }
    } else {
      assert PlanRange(max, min, b) == NoBins;
    }
  }

  /** `binsNew` is the distance from the start to the maximum in widths. */
  lemma PlanSpan(max: real, min: real, b: int, p: BinPlan)
    requires p == PlanRange(max, min, b)
    ensures p.Plan? ==> p.width != 0 && p.binsNew == (max - p.start) / p.width as real
  {
  }

  lemma DivMul(x: real, w: real, q: real)
    requires w != 0.0 && q == x / w
    ensures q * w == x
  {
  }

  /** `w * Math.round(min / w)` is the multiple of `w` nearest to `min`. */
  lemma SnappedStart(min: real, w: int)
    requires w > 0
    ensures var start := (w * Round(min / w as real)) as real;
      && start == start.Floor as real && start.Floor % w == 0
      && min - w as real / 2.0 < start <= min + w as real / 2.0
  {
    var k := Round(min / w as real);
    MultipleOf(w, k);
    MulStrict(min / w as real - 0.5, k as real, w as real);
    MulWeak(k as real, min / w as real + 0.5, w as real);
  }

  lemma MultipleOf(w: int, k: int)
    requires w != 0
    ensures (w * k) % w == 0
  {
    var q := (w * k) / w;
    var r := (w * k) % w;
    assert w * (k - q) == r;
    if k - q != 0 {
      if w > 0 {
        if k - q > 0 { MulIntGrowth(w, k - q); } else { MulIntGrowth(w, q - k); }
      } else {
        if k - q > 0 { MulIntGrowth(-w, k - q); } else { MulIntGrowth(-w, q - k); }
      }
    }
  }

  lemma MulIntGrowth(a: int, m: int)
    requires a > 0 && m >= 1
    ensures a * m >= a
  {
  }

  /** The sum of the bins' counts. */
  function SumCounts(c: seq<Bin>): nat
    decreases |c|
  {
    if c == [] then 0 else SumCounts(c[..|c| - 1]) + c[|c| - 1].count
  }

  /** The bins of a plan tile the line: bin 0 starts at `start`, each is `width` wide and starts where the last ended. */
  lemma PlannedContiguous(values: seq<real>, start: real, width: int, binsNew: real)
    ensures var c := PlannedBins(values, start, width, binsNew);
      && (|c| > 0 ==> c[0].subdata.min == start)
      && (forall i :: 0 <= i < |c| ==> c[i].subdata.max == c[i].subdata.min + width as real)
      && (forall i :: 0 <= i < |c| - 1 ==> c[i].subdata.max == c[i + 1].subdata.min)
  {
    var c := PlannedBins(values, start, width, binsNew);
    forall i | 0 <= i < |c|
      ensures c[i].subdata == KernelRange(start, width, i)
    {
      PlannedBinAt(values, start, width, binsNew, i);
    }
    forall i | 0 <= i < |c| - 1
      ensures c[i].subdata.max == c[i + 1].subdata.min
    {
      assert BinStart(start, width, i + 1) == BinStart(start, width, i) + width as real;
    }
  }

  /** The bins of the chart are contiguous and of equal width, the first starting at the planned start. */
  lemma ChartContiguous(values: seq<real>, bins: int)
    ensures var c := ChartData(values, bins); var p := PlanBins(values, bins);
      && (p.NoBins? ==> c == [])
      && (p.Plan? && |c| > 0 ==> c[0].subdata.min == p.start)
      && (p.Plan? ==> forall i :: 0 <= i < |c| ==> c[i].subdata.max == c[i].subdata.min + p.width as real)
      && (forall i :: 0 <= i < |c| - 1 ==> c[i].subdata.max == c[i + 1].subdata.min)
  {
    var p := PlanBins(values, bins);
    if p.Plan? {
      PlannedContiguous(values, p.start, p.width, p.binsNew);
    }
  }

  /** The arithmetic of PlannedCoverMax: `n - 1 < binsNew <= n` widths around the distance to the maximum. */
  lemma CoverArith(start: real, w: real, binsNew: real, n: int, max: real)
    requires w > 0.0 && binsNew == (max - start) / w && (n - 1) as real < binsNew <= n as real
    ensures start + (n - 1) as real * w < max <= start + (n - 1) as real * w + w
  {
    DivMul(max - start, w, binsNew);
    var m := (n - 1) as real;
    MulStrict(m, binsNew, w);
    assert m * w < binsNew * w;
    assert m * w < max - start;
    MulWeak(binsNew, m + 1.0, w);
    assert binsNew * w <= (m + 1.0) * w;
    assert (m + 1.0) * w == m * w + w;
    assert max - start <= m * w + w;
  }

  /** The last bin of a plan with a positive width starts below the maximum and ends at or above it. */
  lemma LastKernelCoversMax(start: real, width: int, binsNew: real, max: real)
    requires width > 0 && binsNew == (max - start) / width as real && binsNew > 0.0
    ensures var r := KernelRange(start, width, BinCount(binsNew) - 1); r.min < max <= r.max
  {
    var n := BinCount(binsNew);
    BinStartValue(start, width, n - 1);
    CoverArith(start, width as real, binsNew, n, max);
  }

  lemma PlannedCoverMax(values: seq<real>, start: real, width: int, binsNew: real, max: real)
    requires width > 0 && binsNew == (max - start) / width as real
    ensures var c := PlannedBins(values, start, width, binsNew);
      |c| > 0 ==> c[|c| - 1].subdata.min < max <= c[|c| - 1].subdata.max
  {
    var c := PlannedBins(values, start, width, binsNew);
    var n := BinCount(binsNew);
    if n > 0 {
      LastKernelCoversMax(start, width, binsNew, max);
      PlannedBinAt(values, start, width, binsNew, n - 1);
    }
  }

  lemma RangeCoversMax(values: seq<real>, max: real, min: real, b: int, p: BinPlan)
    requires p == PlanRange(max, min, b) && p.Plan? && p.width > 0
    ensures var c := PlannedBins(values, p.start, p.width, p.binsNew);
      |c| > 0 ==> c[|c| - 1].subdata.min < max <= c[|c| - 1].subdata.max
  {
    PlanSpan(max, min, b, p);
    PlannedCoverMax(values, p.start, p.width, p.binsNew, max);
  }

  lemma PlanBinsUnfold(values: seq<real>, bins: int)
    requires values != []
    ensures PlanBins(values, bins) == PlanRange(Max(values), LowEnd(values), ClampBins(bins, |values|))
  {
  }

  /** Every value lies at or below the end of the last bin, and above its start when it is the maximum. */
  lemma ChartCoversMax(values: seq<real>, bins: int)
    ensures var c := ChartData(values, bins); var p := PlanBins(values, bins);
      p.Plan? && p.width > 0 && |c| > 0 ==>
        && c[|c| - 1].subdata.min < Max(values) <= c[|c| - 1].subdata.max
        && forall i :: 0 <= i < |values| ==> values[i] <= c[|c| - 1].subdata.max
  {
    var p := PlanBins(values, bins);
    var c := ChartData(values, bins);
    if p.Plan? && p.width > 0 {
      PlanBinsUnfold(values, bins);
      RangeCoversMax(values, Max(values), LowEnd(values), ClampBins(bins, |values|), p);
      assert c == PlannedBins(values, p.start, p.width, p.binsNew);
      if |c| > 0 {
        var top := c[|c| - 1].subdata.max;
        assert Max(values) <= top;
        forall i | 0 <= i < |values|
          ensures values[i] <= top
        {
        }
      }
    }
  }

  /** What bin `i` of a plan holds, seen without its label. */
  lemma PlannedBinAt(values: seq<real>, start: real, width: int, binsNew: real, i: nat)
    requires i < BinCount(binsNew)
    ensures var b := PlannedBins(values, start, width, binsNew)[i];
      && b.subdata == KernelRange(start, width, i)
      && b.count == CountIn(values, KernelRange(start, width, i))
      && b.color == RampColor(Ramp(binsNew), i)
  {
    BinsUpToAt(values, start, width, Ramp(binsNew), BinCount(binsNew), i);
  }

  /** Bins never start before `start` when the width is not negative. */
  lemma {:induction false} BinStartFrom(start: real, width: int, i: nat)
    requires width >= 0
    ensures start <= BinStart(start, width, i) <= BinStart(start, width, i + 1)
    decreases i
  {
    if i > 0 {
      BinStartFrom(start, width, i - 1);
    }
  }

  /** Counting over two adjacent ranges counts over their union. */
  lemma {:induction false} CountSplit(values: seq<real>, a: real, m: real, b: real)
    requires a <= m <= b
    ensures CountIn(values, Range(a, b)) == CountIn(values, Range(a, m)) + CountIn(values, Range(m, b))
    decreases |values|
  {
    if values != [] {
      CountSplit(values[..|values| - 1], a, m, b);
    }
  }

  /** Every value is counted exactly when every value lies in the range. */
  lemma {:induction false} CountInAll(values: seq<real>, r: Range)
    ensures CountIn(values, r) == |values| <==> forall i :: 0 <= i < |values| ==> InRange(values[i], r)
    decreases |values|
  {
    if values != [] {
      var init := values[..|values| - 1];
      CountInAll(init, r);
      assert forall i :: 0 <= i < |init| ==> init[i] == values[i];
    }
  }

  /** The first `k` bins of a layout together count the values from `start` to the end of bin `k - 1`. */
  lemma {:induction false} BinsUpToTotal(values: seq<real>, start: real, width: int, ramp: seq<string>, k: nat)
    requires width >= 0
    ensures SumCounts(BinsUpTo(values, start, width, ramp, k)) == CountIn(values, Range(start, BinStart(start, width, k)))
    decreases k
  {
    if k == 0 {
      CountEmpty(values, Range(start, start));
    } else {
      var c := BinsUpTo(values, start, width, ramp, k);
      var mid, hi := BinStart(start, width, k - 1), BinStart(start, width, k);
      BinsUpToTotal(values, start, width, ramp, k - 1);
      assert c[..k - 1] == BinsUpTo(values, start, width, ramp, k - 1);
      assert c[k - 1].count == CountIn(values, Range(mid, hi));
      BinStartFrom(start, width, k - 1);
      CountSplit(values, start, mid, hi);
    }
  }

  /** A range that ends where it starts, or before, holds no value. */
  lemma {:induction false} CountEmpty(values: seq<real>, r: Range)
    requires r.max <= r.min
    ensures CountIn(values, r) == 0
    decreases |values|
  {
    if values != [] {
      CountEmpty(values[..|values| - 1], r);
    }
  }

  /** With a negative width every bin is empty. */
  lemma {:induction false} BinsUpToNone(values: seq<real>, start: real, width: int, ramp: seq<string>, k: nat)
    requires width < 0
    ensures SumCounts(BinsUpTo(values, start, width, ramp, k)) == 0
    decreases k
  {
    if k > 0 {
      var c := BinsUpTo(values, start, width, ramp, k);
      BinsUpToNone(values, start, width, ramp, k - 1);
      assert c[..k - 1] == BinsUpTo(values, start, width, ramp, k - 1);
      CountEmpty(values, KernelRange(start, width, k - 1));
    }
  }

  /**
   * The bars together hold exactly the values above the start of the first
   * bar: with a positive width all of them, unless some value lies at or
   * below that start, which no bar counts.
   */
  lemma ChartTotal(values: seq<real>, bins: int)
    ensures var c := ChartData(values, bins); var p := PlanBins(values, bins);
      && SumCounts(c) <= |values|
      && (p.Plan? && p.width > 0 && |c| > 0 ==>
            && SumCounts(c) == CountIn(values, Range(p.start, c[|c| - 1].subdata.max))
            && (SumCounts(c) == |values| <==> forall i :: 0 <= i < |values| ==> p.start < values[i]))
  {
    var c := ChartData(values, bins);
    var p := PlanBins(values, bins);
    if p.Plan? {
      assert c == PlannedBins(values, p.start, p.width, p.binsNew);
      if p.width >= 0 {
        var n := |c|;
        BinsUpToTotal(values, p.start, p.width, Ramp(p.binsNew), n);
        if n > 0 {
          assert c[n - 1].subdata.max == BinStart(p.start, p.width, n) by {
            PlannedBinAt(values, p.start, p.width, p.binsNew, n - 1);
          }
          var top := c[n - 1].subdata.max;
          ChartCoversMax(values, bins);
          CountInAll(values, Range(p.start, top));
        }
      } else {
        BinsUpToNone(values, p.start, p.width, Ramp(p.binsNew), |c|);
      }
    }
  }

  /**
   * Bin `i` takes colour `i` of the ramp, the ten-colour ramp exactly when
   * `binsNew` exceeds 9; every bin is coloured exactly when there are no more
   * bins than ramp colours.
   */
  lemma ChartColors(values: seq<real>, bins: int)
    ensures var c := ChartData(values, bins); var p := PlanBins(values, bins);
      && (p.Plan? ==> Ramp(p.binsNew) == if p.binsNew > 9.0 then TEN_COLORS else SIX_COLORS)
      && (p.Plan? ==> forall i :: 0 <= i < |c| ==>
            (c[i].color.Some? <==> i < |Ramp(p.binsNew)|) &&
            (c[i].color.Some? ==> c[i].color.value == Ramp(p.binsNew)[i]))
      && (p.Plan? ==> ((forall i :: 0 <= i < |c| ==> c[i].color.Some?) <==> |c| <= |Ramp(p.binsNew)|))
  {
    var c := ChartData(values, bins);
    var p := PlanBins(values, bins);
    if p.Plan? {
      assert c == PlannedBins(values, p.start, p.width, p.binsNew);
      forall i | 0 <= i < |c|
        ensures c[i].color == RampColor(Ramp(p.binsNew), i)
      {
        PlannedBinAt(values, p.start, p.width, p.binsNew, i);
      }
      if |c| > |Ramp(p.binsNew)| {
        var k := |Ramp(p.binsNew)|;
        assert c[k].color == None;
      }
    }
  }

  /**
   * A value at the start of the first bin is counted nowhere: for areas 8 and
   * 30 in two bins the width is 10 and the bins are (10, 20] and (20, 30], so
   * the bars hold one of the two values.
   */
  lemma LostValueExample()
    ensures var c := ChartData([8.0, 30.0], 2);
      && c == [ Bin(BinLabel(10, 20), 0, Range(10.0, 20.0), Some("#E4002B")),
                Bin(BinLabel(20, 30), 1, Range(20.0, 30.0), Some("#A6192B")) ]
      && SumCounts(c) == 1
  {
    LostValuePlan();
    assert BinCount(2.0) == 2 && Ramp(2.0) == SIX_COLORS;
    LostValueBins();
  }

  lemma LostValuePlan()
    ensures PlanBins([8.0, 30.0], 2) == Plan(10.0, 10, 2.0)
  {
    var values := [8.0, 30.0];
    assert Max(values) == 30.0 && Min(values) == 8.0;
    assert Round(8.0) == 8;
    assert LowEnd(values) == 8.0;
    LostValueRange();
  }

  lemma LostValueRange()
    ensures PlanRange(30.0, 8.0, 2) == Plan(10.0, 10, 2.0)
  {
    assert SnapWidth(11.0) == 10 by {
      assert Round(11.0 / 5.0) == 2;
    }
    assert Round(8.0 / 10.0) == 1;
  }

  lemma LostValueBins()
    ensures var c := BinsUpTo([8.0, 30.0], 10.0, 10, SIX_COLORS, 2);
      && c == [ Bin(BinLabel(10, 20), 0, Range(10.0, 20.0), Some("#E4002B")),
                Bin(BinLabel(20, 30), 1, Range(20.0, 30.0), Some("#A6192B")) ]
      && SumCounts(c) == 1
  {
    var values := [8.0, 30.0];
    assert Round(20.0) == 20 && Round(30.0) == 30 && Round(10.0) == 10;
    var c := BinsUpTo(values, 10.0, 10, SIX_COLORS, 2);
    assert BinsUpTo(values, 10.0, 10, SIX_COLORS, 1) == [Bin(BinLabel(10, 20), 0, Range(10.0, 20.0), Some("#E4002B"))];
    assert c[1] == Bin(BinLabel(20, 30), 1, Range(20.0, 30.0), Some("#A6192B"));
    assert c[..1] == BinsUpTo(values, 10.0, 10, SIX_COLORS, 1);
    assert c[..1][..0] == [];
    assert SumCounts(c[..1]) == 0;
  }

  /**
   * Areas 10, 20, 30, 40 and 1005 in five bins: the raw width 199 snaps to
   * 200, the start 10 snaps to 0, and the 5.025 bins become six bars of
   * width 200 starting at 0. Every value lies above that start, so by
   * AllAboveStartCounted the six bars count all five values.
   */
  lemma TierExample()
    ensures var values := [10.0, 20.0, 30.0, 40.0, 1005.0];
      && PlanBins(values, 5) == Plan(0.0, 200, 5.025)
      && BinCount(5.025) == 6
      && forall i :: 0 <= i < |values| ==> 0.0 < values[i]
  {
    TierPlan();
  }

  /** When every value lies above the first bin's start, the bars count every value. */
  lemma AllAboveStartCounted(values: seq<real>, bins: int, p: BinPlan)
    requires p == PlanBins(values, bins) && p.Plan? && p.width > 0 && p.binsNew > 0.0
    requires forall i :: 0 <= i < |values| ==> p.start < values[i]
    ensures |ChartData(values, bins)| == BinCount(p.binsNew)
    ensures SumCounts(ChartData(values, bins)) == |values|
  {
    assert ChartData(values, bins) == PlannedBins(values, p.start, p.width, p.binsNew);
    ChartTotal(values, bins);
  }

  lemma TierPlan()
    ensures PlanBins([10.0, 20.0, 30.0, 40.0, 1005.0], 5) == Plan(0.0, 200, 5.025)
  {
    var values := [10.0, 20.0, 30.0, 40.0, 1005.0];
    assert Max(values) == 1005.0 && Min(values) == 10.0;
    assert Round(10.0) == 10;
    assert LowEnd(values) == 10.0;
    TierRange();
  }

  lemma TierRange()
    ensures PlanRange(1005.0, 10.0, 5) == Plan(0.0, 200, 5.025)
  {
    assert SnapWidth(199.0) == 200 by {
      assert Round(199.0 / 50.0) == 4;
    }
    assert Round(10.0 / 200.0) == 0;
  }

  /** Values that all round to 1 still get one bar: areas 1 and 1 in one bin give the bin (0, 1] holding both. */
  lemma NearOneExample()
    ensures ChartData([1.0, 1.0], 1) == [Bin(BinLabel(0, 1), 2, Range(0.0, 1.0), Some("#E4002B"))]
  {
    var values := [1.0, 1.0];
    assert Max(values) == 1.0 && Min(values) == 1.0;
    assert Round(1.0) == 1 && Round(0.0) == 0;
    assert LowEnd(values) == 0.0;
    assert PlanBins(values, 1) == Plan(0.0, 1, 1.0);
    assert BinCount(1.0) == 1;
    assert CountIn(values, Range(0.0, 1.0)) == 2 by {
      assert values[..1] == [1.0] && values[..1][..0] == [];
    }
  }

  /** When all values are equal and do not round to 1, the width rounds to 0 and there are no bars. */
  lemma DegenerateRange(values: seq<real>, bins: int)
    requires values != [] && forall i :: 0 <= i < |values| ==> values[i] == values[0]
    requires Round(values[0]) != 1
    ensures ChartData(values, bins) == []
  {
    assert Max(values) == values[0] && Min(values) == values[0];
    var b := ClampBins(bins, |values|);
    PlanBinsUnfold(values, bins);
    if b != 0 {
      assert (Max(values) - LowEnd(values)) / b as real == 0.0;
      assert SnapWidth(0.0) == 0;
    }
  }

  /** The label text ends so: its first `m` follows the low bound's digits, and both bounds read back. */
  lemma LabelTextReadsBack(l: BinLabel)
    ensures var t := LabelText(l); var p := IndexOf(t, 'm');
      && p + 5 <= |t| - 2 && t[p..p + 5] == "m2 - " && t[|t| - 2..] == "m2"
      && ParseNumber(t[..p]) == Some(l.low as real)
      && ParseNumber(t[p + 5..|t| - 2]) == Some(l.high as real)
  {
    NoLetterM(l.low);
    NoLetterM(l.high);
    LabelParts(Radix.IntToString(l.low, 10), Radix.IntToString(l.high, 10), LabelText(l));
    NumberOfIntString(l.low);
    NumberOfIntString(l.high);
  }

  /** Where the pieces of `low + "m2 - " + high + "m2"` sit, when `low` holds no `m`. */
  lemma LabelParts(a: string, b: string, t: string)
    requires t == a + "m2 - " + b + "m2" && 'm' !in a
    ensures var p := IndexOf(t, 'm');
      && p == |a| && p + 5 <= |t| - 2 && t[p..p + 5] == "m2 - " && t[|t| - 2..] == "m2"
      && t[..p] == a && t[p + 5..|t| - 2] == b
  {
    LabelIndex(a, b, t);
    LabelSlices(a, b, t);
  }

  lemma LabelIndex(a: string, b: string, t: string)
    requires t == a + "m2 - " + b + "m2" && 'm' !in a
    ensures IndexOf(t, 'm') == |a|
  {
    var u := "m2 - " + b + "m2";
    assert t == a + u;
    assert u[0] == 'm';
    IndexOfAfter(a, u, 'm');
  }

  lemma LabelSlices(a: string, b: string, t: string)
    requires t == a + "m2 - " + b + "m2"
    ensures |t| == |a| + |b| + 7
    ensures t[..|a|] == a && t[|a|..|a| + 5] == "m2 - " && t[|a| + 5..|t| - 2] == b && t[|t| - 2..] == "m2"
  {
    assert t[..|a|] == a;
    assert t[|a|..|a| + 5] == "m2 - ";
    assert t[|a| + 5..|t| - 2] == b;
  }

  /** The decimal digits of an integer hold no `m`. */
  lemma NoLetterM(i: int)
    ensures 1 <= |Radix.IntToString(i, 10)| && 'm' !in Radix.IntToString(i, 10)
  {
    var n: nat := if i < 0 then -i else i;
    Radix.NatToStringRoundTrip(n, 10);
    var d := Radix.NatToString(n, 10);
    assert Radix.DigitValue('m') == 16;
    if i < 0 {
      assert Radix.IntToString(i, 10) == "-" + d;
    }
  }

  lemma {:induction false} IndexOfAfter(a: string, b: string, c: char)
    requires c !in a
    ensures IndexOf(a + b, c) == |a| + IndexOf(b, c)
    decreases |a|
  {
    if a != [] {
      assert (a + b)[1..] == a[1..] + b;
      IndexOfAfter(a[1..], b, c);
    } else {
      assert a + b == b;
    }
  }

  /** A bar of the lease-expiry chart: a year, how many records expire in it, its colour. */
  datatype YearBin = YearBin(year: int, count: nat, color: Option<string>)

  /** The year of every record, null dates included (they give 1970 in UTC). */
  function YearsOf(selection: seq<Feature>, leaseexpiryname: string, yearOf: Option<Value> -> int): (r: seq<int>)
    ensures |r| == |selection|
  {
    seq(|selection|, j requires 0 <= j < |selection| => yearOf(Attribute(selection[j], leaseexpiryname)))
  }

  /** The first `k` year bars for the categories `c`, each counting the records of its year. */
  function YearBars(years: seq<int>, c: seq<int>, ramp: seq<string>, k: nat): (r: seq<YearBin>)
    requires k <= |c|
    ensures |r| == k
    decreases k
  {
    if k == 0 then []
    else YearBars(years, c, ramp, k - 1) + [YearBin(c[k - 1], Occurrences(years, c[k - 1]), RampColor(ramp, k - 1))]
  }

  /** The chart data `createChartData_exp` returns for these years. */
  function ExpChartData(years: seq<int>): seq<YearBin> {
    var c := YearCategories(years);
    YearBars(years, c, Ramp(|c| as real), |c|)
  }

  lemma {:induction false} YearBarsAt(years: seq<int>, c: seq<int>, ramp: seq<string>, k: nat, i: nat)
    requires i < k <= |c|
    ensures YearBars(years, c, ramp, k)[i] == YearBin(c[i], Occurrences(years, c[i]), RampColor(ramp, i))
    decreases k
  {
    if i < k - 1 {
      YearBarsAt(years, c, ramp, k - 1, i);
    }
  }

  method CreateChartDataExp(selection: seq<Feature>, leaseexpiryname: string, yearOf: Option<Value> -> int)
    returns (chartData: seq<YearBin>)
    ensures chartData == ExpChartData(YearsOf(selection, leaseexpiryname, yearOf))
  {
    var totalrange := CollectYears(selection, leaseexpiryname, yearOf);
    var uniqueYears := YearCategories(totalrange);
    var binsNew := |uniqueYears|;
    var color := if binsNew > 9 then TEN_COLORS else SIX_COLORS;
    assert color == Ramp(binsNew as real);
    var empty := EmptyYearBars(uniqueYears, color);
    chartData := CountYears(totalrange, uniqueYears, empty);
    forall i | 0 <= i < |chartData|
      ensures chartData[i] == ExpChartData(totalrange)[i]
    {
      YearBarsAt(totalrange, uniqueYears, color, |uniqueYears|, i);
    }
  }

  /** The first loop of `createChartData_exp`: the year of every record. */
  method CollectYears(selection: seq<Feature>, leaseexpiryname: string, yearOf: Option<Value> -> int)
    returns (totalrange: seq<int>)
    ensures totalrange == YearsOf(selection, leaseexpiryname, yearOf)
  {
    totalrange := [];
    for k := 0 to |selection|
      invariant |totalrange| == k
      invariant forall m :: 0 <= m < k ==> totalrange[m] == yearOf(Attribute(selection[m], leaseexpiryname))
    {
      totalrange := totalrange + [yearOf(Attribute(selection[k], leaseexpiryname))];
    }
  }

  /** One empty bar per category, coloured from the ramp by position. */
  method EmptyYearBars(uniqueYears: seq<int>, color: seq<string>) returns (chartData: seq<YearBin>)
    ensures |chartData| == |uniqueYears|
    ensures forall m :: 0 <= m < |uniqueYears| ==> chartData[m] == YearBin(uniqueYears[m], 0, RampColor(color, m))
  {
    chartData := [];
    for i := 0 to |uniqueYears|
      invariant |chartData| == i
      invariant forall m :: 0 <= m < i ==> chartData[m] == YearBin(uniqueYears[m], 0, RampColor(color, m))
    {
      chartData := chartData + [YearBin(uniqueYears[i], 0, RampColor(color, i))];
    }
  }

  /** The counting loops of `createChartData_exp`: a bar gains one for every record of its year. */
  method CountYears(totalrange: seq<int>, uniqueYears: seq<int>, empty: seq<YearBin>) returns (chartData: seq<YearBin>)
    requires |empty| == |uniqueYears|
    requires forall m :: 0 <= m < |empty| ==> empty[m].year == uniqueYears[m] && empty[m].count == 0
    ensures |chartData| == |uniqueYears|
    ensures forall m :: 0 <= m < |uniqueYears| ==> chartData[m] == empty[m].(count := Occurrences(totalrange, uniqueYears[m]))
  {
    chartData := empty;
    for k := 0 to |totalrange|
      invariant |chartData| == |uniqueYears|
      invariant forall m :: 0 <= m < |uniqueYears| ==> chartData[m] == empty[m].(count := Occurrences(totalrange[..k], uniqueYears[m]))
    {
      assert totalrange[..k + 1][..k] == totalrange[..k];
      for m := 0 to |uniqueYears|
        invariant |chartData| == |uniqueYears|
        invariant forall i :: 0 <= i < m ==> chartData[i] == empty[i].(count := Occurrences(totalrange[..k + 1], uniqueYears[i]))
        invariant forall i :: m <= i < |uniqueYears| ==> chartData[i] == empty[i].(count := Occurrences(totalrange[..k], uniqueYears[i]))
      {
        if totalrange[k] == uniqueYears[m] {
          chartData := chartData[m := chartData[m].(count := chartData[m].count + 1)];
        }
      }
    }
    assert totalrange[..|totalrange|] == totalrange;
  }

  /**
   * The lease-expiry bars: one per distinct year other than 1970, in strictly
   * ascending order, each counting the records of its year (at least one),
   * coloured from the ramp by position.
   */
  lemma ExpChartYears(years: seq<int>)
    ensures var d := ExpChartData(years); var c := YearCategories(years);
      && |d| == |c|
      && (forall i, j :: 0 <= i < j < |d| ==> d[i].year < d[j].year)
      && (forall i :: 0 <= i < |d| ==>
            && d[i].year != SENTINEL_YEAR && d[i].year in years
            && d[i].count == Occurrences(years, d[i].year) && d[i].count >= 1
            && d[i].color == RampColor(Ramp(|c| as real), i))
      && (forall k :: 0 <= k < |years| && years[k] != SENTINEL_YEAR ==> exists i :: 0 <= i < |d| && d[i].year == years[k])
  {
    var d := ExpChartData(years);
    var c := YearCategories(years);
    CategoriesAscending(years);
    CategoriesMembers(years);
    forall i | 0 <= i < |d|
      ensures d[i] == YearBin(c[i], Occurrences(years, c[i]), RampColor(Ramp(|c| as real), i))
    {
      YearBarsAt(years, c, Ramp(|c| as real), |c|, i);
    }
    forall i | 0 <= i < |d|
      ensures d[i].count >= 1
    {
      OccurrencesMembership(years, c[i]);
    }
    forall k | 0 <= k < |years| && years[k] != SENTINEL_YEAR
      ensures exists i :: 0 <= i < |d| && d[i].year == years[k]
    {
      var i :| 0 <= i < |c| && c[i] == years[k];
      assert d[i].year == years[k];
    }
  }

  /** The sum of the year bars' counts. */
  function SumYearCounts(d: seq<YearBin>): nat
    decreases |d|
  {
    if d == [] then 0 else SumYearCounts(d[..|d| - 1]) + d[|d| - 1].count
  }

  /** The first `k` year bars count the records whose year is among the first `k` categories. */
  lemma {:induction false} YearBarsTotal(years: seq<int>, c: seq<int>, ramp: seq<string>, k: nat)
    requires k <= |c| && Distinct(c)
    ensures SumYearCounts(YearBars(years, c, ramp, k)) == OccurrencesOfAny(years, c[..k])
    decreases k
  {
    if k == 0 {
      OccurrencesOfNone(years, c[..0]);
    } else {
      var d := YearBars(years, c, ramp, k);
      YearBarsTotal(years, c, ramp, k - 1);
      assert d[..k - 1] == YearBars(years, c, ramp, k - 1);
      assert c[..k] == c[..k - 1] + [c[k - 1]];
      assert c[k - 1] !in c[..k - 1] by {
        assert forall m :: 0 <= m < k - 1 ==> c[..k - 1][m] == c[m];
      }
      OccurrencesOfAnyAppend(years, c[..k - 1], c[k - 1]);
    }
  }

  lemma {:induction false} OccurrencesOfNone(s: seq<int>, c: seq<int>)
    requires c == []
    ensures OccurrencesOfAny(s, c) == 0
    decreases |s|
  {
    if s != [] {
      OccurrencesOfNone(s[..|s| - 1], c);
    }
  }

  /** The lease-expiry bars together count every record whose year is not 1970. */
  lemma ExpChartTotal(years: seq<int>)
    ensures SumYearCounts(ExpChartData(years)) == |years| - Occurrences(years, SENTINEL_YEAR)
  {
    var c := YearCategories(years);
    CategoriesAscending(years);
    CategoriesMembers(years);
    AllBarsTotal(years, c, Ramp(|c| as real));
  }

  lemma AllBarsTotal(years: seq<int>, c: seq<int>, ramp: seq<string>)
    requires forall i, j :: 0 <= i < j < |c| ==> c[i] < c[j]
    requires forall i :: 0 <= i < |c| ==> c[i] != SENTINEL_YEAR && c[i] in years
    requires forall k :: 0 <= k < |years| && years[k] != SENTINEL_YEAR ==> years[k] in c
    ensures SumYearCounts(YearBars(years, c, ramp, |c|)) == |years| - Occurrences(years, SENTINEL_YEAR)
  {
    assert Distinct(c);
    YearBarsTotal(years, c, ramp, |c|);
    assert c[..|c|] == c;
    OccurrencesOfAllBut(years, c, SENTINEL_YEAR);
  }

  /** `c.toString(16)`, padded to two digits with a leading "0" when it has only one. */
  function ComponentToHex(c: int): string {
    var hex := Radix.IntToString(c, 16);
    if |hex| == 1 then "0" + hex else hex
  }

  /**
   * A component from 0 to 255 becomes two lower-case hex digits that read
   * back as the component; from 256 on it takes three digits or more.
   */
  lemma ComponentHexRoundTrip(c: int)
    ensures 0 <= c < 256 ==>
      && |ComponentToHex(c)| == 2 && Radix.IsDigitString(ComponentToHex(c), 16)
      && Radix.ParseNat(ComponentToHex(c), 16) == Some(c)
    ensures c >= 256 ==> |ComponentToHex(c)| >= 3
  {
    if c >= 0 {
      var hex := Radix.NatToString(c, 16);
      Radix.NatToStringRoundTrip(c, 16);
      if c < 16 {
        Radix.LeadingZero(hex, 16);
      } else {
        Radix.NatToStringRoundTrip(c / 16, 16);
        assert hex == Radix.NatToString(c / 16, 16) + [Radix.DigitChar(c % 16)];
      }
    }
  }

  /** An RGB triple as `"#" + componentToHex(r) + componentToHex(g) + componentToHex(b)`. */
  function HexColor(rgb: (int, int, int)): string {
    "#" + ComponentToHex(rgb.0) + ComponentToHex(rgb.1) + ComponentToHex(rgb.2)
  }

  method RgbToHex(color: seq<(int, int, int)>) returns (colorhex: seq<string>)
    ensures |colorhex| == |color|
    ensures forall i :: 0 <= i < |color| ==> colorhex[i] == HexColor(color[i])
  {
    colorhex := [];
    for i := 0 to |color|
      invariant |colorhex| == i
      invariant forall k :: 0 <= k < i ==> colorhex[k] == HexColor(color[k])
    {
      var hex := "#" + ComponentToHex(color[i].0) + ComponentToHex(color[i].1) + ComponentToHex(color[i].2);
      colorhex := colorhex + [hex];
    }
  }

  /** For components from 0 to 255 the colour is `#rrggbb`, and each pair of digits reads back as its component. */
  lemma HexColorRoundTrip(rgb: (int, int, int))
    requires 0 <= rgb.0 < 256 && 0 <= rgb.1 < 256 && 0 <= rgb.2 < 256
    ensures var h := HexColor(rgb);
      && |h| == 7 && h[0] == '#'
      && Radix.ParseNat(h[1..3], 16) == Some(rgb.0)
      && Radix.ParseNat(h[3..5], 16) == Some(rgb.1)
      && Radix.ParseNat(h[5..7], 16) == Some(rgb.2)
  {
    ComponentHexRoundTrip(rgb.0);
    ComponentHexRoundTrip(rgb.1);
    ComponentHexRoundTrip(rgb.2);
    var h := HexColor(rgb);
    assert h[1..3] == ComponentToHex(rgb.0);
    assert h[3..5] == ComponentToHex(rgb.1);
    assert h[5..7] == ComponentToHex(rgb.2);
  }
}
