// Classification and scaling helpers of the dashboard page: the process
// status and heat colour, guarded change rates, percentage shares,
// sparkline scaling, the front-end/back-end split and the colour fallback.
module DashboardPage {
  import opened Common
  import Sorting

  // ---------------------------------------------------------------
  // Threshold buckets
  // ---------------------------------------------------------------

  datatype Status = High | Medium | Decrease | Normal

  /** The process status: by the size of the difference first, then by its sign. */
  function StatusOf(diff: real): (s: Status)
    ensures s == High <==> Abs(diff) > 20.0
    ensures s == Medium <==> 5.0 < Abs(diff) <= 20.0
    ensures s == Decrease <==> -5.0 <= diff < 0.0
    ensures s == Normal <==> 0.0 <= diff <= 5.0
  {
    if Abs(diff) > 20.0 then High
    else if Abs(diff) > 5.0 then Medium
    else if diff < 0.0 then Decrease
    else Normal
  }

  /** Only small decreases are shown as decreases: a drop of more than 5 is a larger change. */
  lemma LargeDropIsNotDecrease(diff: real)
    requires diff < -5.0
    ensures StatusOf(diff) != Decrease
  {
  }

  datatype Heat = Red | Orange | Amber | Blue

  function HeatRank(h: Heat): nat
  {
    match h
    case Blue => 0
    case Amber => 1
    case Orange => 2
    case Red => 3
  }

  /** The colour of a process node by its variance, with strict lower bounds 15, 5 and 0. */
  function VarianceColor(v: real): (h: Heat)
    ensures h == Red <==> v > 15.0
    ensures h == Orange <==> 5.0 < v <= 15.0
    ensures h == Amber <==> 0.0 < v <= 5.0
    ensures h == Blue <==> v <= 0.0
  {
    if v > 15.0 then Red
    else if v > 5.0 then Orange
    else if v > 0.0 then Amber
    else Blue
  }

  /** A larger variance never gets a cooler colour. */
  lemma VarianceColorMonotone(v: real, w: real)
    requires v <= w
    ensures HeatRank(VarianceColor(v)) <= HeatRank(VarianceColor(w))
  {
  }

  // ---------------------------------------------------------------
  // Guarded rates and the bar width
  // ---------------------------------------------------------------

  datatype CostBreakdownItem = CostBreakdownItem(category: string, amount: real, change: real)

  /** The change in percent of the previous amount (amount - change), 0 when that is 0. */
  function ChangeRate(item: CostBreakdownItem): (r: real)
    ensures item.amount == item.change ==> r == 0.0
    ensures item.amount != item.change ==> r * (item.amount - item.change) == item.change * 100.0
  {
    PercentOf(item.change, item.amount - item.change)
  }

  /** Applying the rate to the previous amount gives back the current amount. */
  lemma ChangeRateRestores(item: CostBreakdownItem)
    requires item.amount != item.change
    ensures var prev := item.amount - item.change;
      prev + prev * ChangeRate(item) / 100.0 == item.amount
  {
    var prev := item.amount - item.change;
    var r := ChangeRate(item);
    assert r * prev == item.change * 100.0;
    assert prev * r / 100.0 == item.change;
  }

  function ItemChange(item: CostBreakdownItem): real
  {
    item.change
  }

  /**
   * The cost-element cards: a copy of the items sorted by change, largest
   * first (ties in input order), each with its change rate.
   */
  method CostElementCards(items: seq<CostBreakdownItem>)
    returns (sorted: seq<CostBreakdownItem>, rates: seq<real>, ghost perm: seq<nat>)
    ensures Sorting.IsPermutation(perm, |items|) && Sorting.StableDesc(items, ItemChange, perm)
    ensures |sorted| == |items| && forall i :: 0 <= i < |sorted| ==> sorted[i] == items[perm[i]]
    ensures forall i, j :: 0 <= i < j < |sorted| ==> sorted[i].change >= sorted[j].change
    ensures |rates| == |sorted| && forall i :: 0 <= i < |rates| ==> rates[i] == ChangeRate(sorted[i])
  {
    sorted, perm := Sorting.SortDesc(items, ItemChange);
    rates := [];
    for i := 0 to |sorted|
      invariant |rates| == i && forall k :: 0 <= k < i ==> rates[k] == ChangeRate(sorted[k])
    {
      rates := rates + [ChangeRate(sorted[i])];
    }
  }

  datatype DriverChange = DriverChange(change: real, changePercent: real)

  /** An allocation driver's change and its percentage, 0 when the previous value is 0. */
  function DriverChangeOf(current: real, previous: real): (d: DriverChange)
    ensures d.change + previous == current
    ensures previous == 0.0 ==> d.changePercent == 0.0
    ensures previous != 0.0 ==> d.changePercent * previous == d.change * 100.0
  {
    DriverChange(current - previous, PercentOf(current - previous, previous))
  }

  /** The progress bar width: the size of the percentage, capped at 100. */
  function BarWidth(pct: real): (w: real)
    ensures 0.0 <= w <= 100.0
    ensures w <= Abs(pct)
    ensures Abs(pct) <= 100.0 ==> w == Abs(pct)
  {
    Min(Abs(pct), 100.0)
  }

  /** Increases and decreases of the same size draw bars of the same width. */
  lemma BarWidthSymmetric(pct: real)
    ensures BarWidth(pct) == BarWidth(-pct)
  {
  }

  // ---------------------------------------------------------------
  // Percentage shares of the cost-element grid
  // ---------------------------------------------------------------

  datatype CostElement = CostElement(element: string, current: real, previous: real, variance: real)

  function AbsVariance(e: CostElement): real
  {
    Abs(e.variance)
  }

  /** The share of one element in the total of absolute variances; 0 unless the total is positive. */
  function ElementShare(e: CostElement, total: real): (r: real)
    ensures r >= 0.0
    ensures total <= 0.0 ==> r == 0.0
  {
    if total > 0.0 then Abs(e.variance) / total * 100.0 else 0.0
  }

  /** A share times the total gives back the element's part, in percent. */
  lemma ShareTimesTotal(a: real, total: real)
    requires total > 0.0
    ensures a / total * 100.0 * total == a * 100.0
  {
  }

  /** The shares add up to the sum of the absolute variances, scaled. */
  lemma {:induction false} SharesScale(es: seq<CostElement>, pcts: seq<real>, total: real)
    requires total > 0.0
    requires |pcts| == |es| && forall i :: 0 <= i < |es| ==> pcts[i] == ElementShare(es[i], total)
    ensures Sum(pcts) * total == SumBy(es, AbsVariance) * 100.0
  {
    if es != [] {
      SharesScale(es[1..], pcts[1..], total);
      ShareTimesTotal(AbsVariance(es[0]), total);
    }
  }

  /**
   * The cost-element grid of a selected process: its elements sorted by
   * absolute variance, largest first, each with its share of the total
   * absolute variance. Shares are never negative; they sum to 100 when
   * the total is positive and are all 0 otherwise.
   */
  method ElementGrid(elements: seq<CostElement>)
    returns (sorted: seq<CostElement>, pcts: seq<real>, ghost perm: seq<nat>)
    ensures Sorting.IsPermutation(perm, |elements|) && Sorting.StableDesc(elements, AbsVariance, perm)
    ensures |sorted| == |elements| && forall i :: 0 <= i < |sorted| ==> sorted[i] == elements[perm[i]]
    ensures |pcts| == |sorted|
    ensures forall i :: 0 <= i < |pcts| ==> pcts[i] == ElementShare(sorted[i], SumBy(elements, AbsVariance))
    ensures forall i :: 0 <= i < |pcts| ==> pcts[i] >= 0.0
    ensures SumBy(elements, AbsVariance) > 0.0 ==> Sum(pcts) == 100.0
    ensures SumBy(elements, AbsVariance) == 0.0 ==> forall i :: 0 <= i < |pcts| ==> pcts[i] == 0.0
  {
    sorted, perm := Sorting.SortDesc(elements, AbsVariance);
    var total := SumBy(elements, AbsVariance);
    pcts := Shares(sorted, total);
    AbsTotalNonNegative(elements);
    if total > 0.0 {
      SharesScale(sorted, pcts, total);
      SharesSumTo100(elements, sorted, Sum(pcts), total);
    }
  }

  /** One share per element, in order. */
  method Shares(es: seq<CostElement>, total: real) returns (pcts: seq<real>)
    ensures |pcts| == |es|
    ensures forall i :: 0 <= i < |pcts| ==> pcts[i] == ElementShare(es[i], total)
  {
    pcts := [];
    for i := 0 to |es|
      invariant |pcts| == i
      invariant forall k :: 0 <= k < i ==> pcts[k] == ElementShare(es[k], total)
    {
      pcts := pcts + [ElementShare(es[i], total)];
    }
  }

  /**
   * Scaled shares of a reordering of the elements come to 100 when the
   * total of the original order is positive.
   */
  lemma SharesSumTo100(elements: seq<CostElement>, sorted: seq<CostElement>, shareSum: real, total: real)
    requires multiset(sorted) == multiset(elements)
    requires total == SumBy(elements, AbsVariance) && total > 0.0
    requires shareSum * total == SumBy(sorted, AbsVariance) * 100.0
    ensures shareSum == 100.0
  {
    SumByPermutation(sorted, elements, AbsVariance);
    ScaledToHundred(shareSum, SumBy(sorted, AbsVariance), total);
  }

  lemma {:induction false} AbsTotalNonNegative(es: seq<CostElement>)
    ensures SumBy(es, AbsVariance) >= 0.0
  {
    if es != [] {
      AbsTotalNonNegative(es[1..]);
    }
  }

  // ---------------------------------------------------------------
  // Sparkline
  // ---------------------------------------------------------------

  function SeqMin(s: seq<real>): (m: real)
    requires s != []
    ensures m in s && forall i :: 0 <= i < |s| ==> m <= s[i]
  {
    if |s| == 1 then s[0] else Min(s[0], SeqMin(s[1..]))
  }

  function SeqMax(s: seq<real>): (m: real)
    requires s != []
    ensures m in s && forall i :: 0 <= i < |s| ==> s[i] <= m
  {
    if |s| == 1 then s[0] else Max(s[0], SeqMax(s[1..]))
  }

  /** `max - min || 1`: the value range, 1 for flat data. */
  function Range(data: seq<real>): (r: real)
    requires data != []
    ensures r > 0.0
  {
    if SeqMax(data) - SeqMin(data) == 0.0 then 1.0 else SeqMax(data) - SeqMin(data)
  }

  /**
   * The x coordinate of point i of n: `i / (n - 1) * width`. For a single
   * point that is 0/0, which is NaN, represented as None.
   */
  function SparkX(i: nat, n: nat, width: real): Option<real>
  {
    if n == 1 then None else Some((i as real) / ((n - 1) as real) * width)
  }

  /** The y coordinate: the value scaled into the height less a 2-pixel margin, larger values higher. */
  function SparkY(data: seq<real>, i: nat, height: real): real
    requires i < |data|
  {
    height - (data[i] - SeqMin(data)) / Range(data) * (height - 4.0) - 2.0
  }

  function SparkPoint(data: seq<real>, i: nat, width: real, height: real): (Option<real>, real)
    requires i < |data|
  {
    (SparkX(i, |data|, width), SparkY(data, i, height))
  }

  /** The sparkline's points, or None (nothing rendered) for empty data. */
  function Sparkline(data: seq<real>, width: real, height: real): (r: Option<seq<(Option<real>, real)>>)
    ensures r.None? <==> data == []
    ensures r.Some? ==> |r.value| == |data|
  {
    if data == [] then None
    else Some(seq(|data|, i requires 0 <= i < |data| => SparkPoint(data, i, width, height)))
  }

  /** A quotient of a value in [0, r] by r lies in [0, 1]. */
  lemma UnitQuotient(d: real, r: real)
    requires r > 0.0 && 0.0 <= d <= r
    ensures 0.0 <= d / r <= 1.0
  {
    var q := d / r;
    assert q * r == d;
    assert (1.0 - q) * r == r - d;
  }

  /** A sum s with s * t == t * 100 for a positive t is 100. */
  lemma ScaledToHundred(s: real, b: real, t: real)
    requires t > 0.0 && s * t == b * 100.0 && b == t
    ensures s == 100.0
  {
    assert (s - 100.0) * t == 0.0;
  }

  /** Scaling a length by a factor in [0, 1] stays within [0, length]. */
  lemma UnitScale(f: real, w: real)
    requires 0.0 <= f <= 1.0 && w >= 0.0
    ensures 0.0 <= f * w <= w
  {
    assert w - f * w == (1.0 - f) * w;
  }

  /** The fraction (v - min) / range lies in [0, 1]. */
  lemma Normalised(data: seq<real>, i: nat)
    requires i < |data|
    ensures 0.0 <= (data[i] - SeqMin(data)) / Range(data) <= 1.0
  {
    RangeFraction(data[i], SeqMin(data), SeqMax(data), Range(data));
  }

  lemma RangeFraction(v: real, lo: real, hi: real, r: real)
    requires lo <= v <= hi && r == (if hi - lo == 0.0 then 1.0 else hi - lo)
    ensures 0.0 <= (v - lo) / r <= 1.0
  {
    UnitQuotient(v - lo, r);
  }

  lemma SparkXWithin(i: nat, n: nat, width: real)
    requires 2 <= n && i < n && width >= 0.0
    ensures SparkX(i, n, width).Some? && 0.0 <= SparkX(i, n, width).value <= width
  {
    UnitQuotient(i as real, (n - 1) as real);
    UnitScale((i as real) / ((n - 1) as real), width);
  }

  lemma SparkYWithin(data: seq<real>, i: nat, height: real)
    requires i < |data| && height >= 4.0
    ensures 2.0 <= SparkY(data, i, height) <= height - 2.0
  {
    var g := (data[i] - SeqMin(data)) / Range(data);
    Normalised(data, i);
    MarginScale(g, height);
  }

  lemma MarginScale(g: real, height: real)
    requires 0.0 <= g <= 1.0 && height >= 4.0
    ensures 2.0 <= height - g * (height - 4.0) - 2.0 <= height - 2.0
  {
    var w := height - 4.0;
    UnitScale(g, w);
    assert 0.0 <= g * w <= w;
    assert g * (height - 4.0) == g * w;
    var t := g * w;
    assert height - t - 2.0 >= 2.0;
  }

  /**
   * With at least two points and room for the 2-pixel margins, every
   * point lies inside the box: x in [0, width], y in [2, height - 2].
   */
  lemma SparklineInBox(data: seq<real>, width: real, height: real, i: nat)
    requires |data| >= 2 && i < |data| && width >= 0.0 && height >= 4.0
    ensures var p := SparkPoint(data, i, width, height);
      p.0.Some? && 0.0 <= p.0.value <= width && 2.0 <= p.1 <= height - 2.0
  {
    SparkXWithin(i, |data|, width);
    SparkYWithin(data, i, height);
  }

  /** Flat data is drawn as a line along the bottom margin. */
  lemma FlatSparkline(data: seq<real>, width: real, height: real, i: nat)
    requires i < |data| && forall k :: 0 <= k < |data| ==> data[k] == data[0]
    ensures SparkPoint(data, i, width, height).1 == height - 2.0
  {
    assert SeqMin(data) == data[0];
  }

  /** Each single point has an undefined x coordinate. */
  lemma SinglePointHasNoX(v: real, width: real, height: real)
    ensures SparkPoint([v], 0, width, height).0.None?
  {
  }

  // ---------------------------------------------------------------
  // Front-end / back-end split
  // ---------------------------------------------------------------

  datatype ProcessItem = ProcessItem(process: string, procType: Option<string>,
                                     frontend: real, backend: real, variance: real)

  /** JavaScript truthiness of an optional string. */
  predicate Truthy(x: Option<string>)
  {
    x.Some? && x.value != ""
  }

  /** A process is front-end by its type, or, untyped, by a positive front-end amount. */
  predicate IsFe(p: ProcessItem)
  {
    p.procType == Some("FE") || (!Truthy(p.procType) && p.frontend > 0.0)
  }

  predicate IsBe(p: ProcessItem)
  {
    p.procType == Some("BE") || (!Truthy(p.procType) && p.backend > 0.0)
  }

  /** `data.filter(keep)`: the kept elements in their input order. */
  function Filter<T(!new)>(s: seq<T>, keep: T -> bool): (r: seq<T>)
    ensures |r| <= |s|
    ensures forall x :: x in r <==> x in s && keep(x)
  {
    if s == [] then []
    else if keep(s[0]) then [s[0]] + Filter(s[1..], keep)
    else Filter(s[1..], keep)
  }

  /** Filtering keeps the input order: it distributes over concatenation. */
  lemma {:induction false} FilterAppend<T(!new)>(a: seq<T>, b: seq<T>, keep: T -> bool)
    ensures Filter(a + b, keep) == Filter(a, keep) + Filter(b, keep)
  {
    if a == [] {
      assert a + b == b;
    } else {
      assert (a + b)[1..] == a[1..] + b;
      FilterAppend(a[1..], b, keep);
    }
  }

  /**
   * The two pipelines of the process view. A process typed FE or BE is in
   * exactly the matching one; an untyped one follows its amounts and may
   * appear in both or neither.
   */
  lemma ProcessSplit(data: seq<ProcessItem>, p: ProcessItem)
    requires p in data
    ensures p.procType == Some("FE") ==> p in Filter(data, IsFe) && p !in Filter(data, IsBe)
    ensures p.procType == Some("BE") ==> p in Filter(data, IsBe) && p !in Filter(data, IsFe)
    ensures !Truthy(p.procType) ==>
      (p in Filter(data, IsFe) <==> p.frontend > 0.0) && (p in Filter(data, IsBe) <==> p.backend > 0.0)
    ensures Truthy(p.procType) && p.procType.value != "FE" && p.procType.value != "BE" ==>
      p !in Filter(data, IsFe) && p !in Filter(data, IsBe)
  {
  }

  // ---------------------------------------------------------------
  // Product colours
  // ---------------------------------------------------------------

  const PieColors: seq<string> := ["#3b82f6", "#8b5cf6", "#ec4899", "#f59e0b", "#10b981", "#64748b"]

  const ProductGroupColors: map<string, string> := map[
    "HBM" := "#3b82f6", "서버DRAM" := "#8b5cf6", "CXL" := "#6366f1", "모바일DRAM" := "#06b6d4",
    "PC DRAM" := "#64748b", "NAND" := "#f59e0b", "SSD" := "#22c55e", "CIS" := "#ec4899"]

  /** A product group's fixed colour, or else the pie palette cycled by its position. */
  function ProductColor(grp: string, idx: nat, groupColors: map<string, string>): (c: string)
    ensures grp in groupColors && groupColors[grp] != "" ==> c == groupColors[grp]
    ensures !(grp in groupColors && groupColors[grp] != "") ==> c == PieColors[idx % |PieColors|]
  {
    if grp in groupColors && groupColors[grp] != "" then groupColors[grp]
    else PieColors[idx % |PieColors|]
  }

  /** Every colour comes from the group table or the palette; positions six apart share a palette colour. */
  lemma ProductColorFrom(grp: string, idx: nat)
    ensures ProductColor(grp, idx, ProductGroupColors) in ProductGroupColors.Values
      || ProductColor(grp, idx, ProductGroupColors) in PieColors
    ensures grp !in ProductGroupColors ==>
      ProductColor(grp, idx, ProductGroupColors) == ProductColor(grp, idx + 6, ProductGroupColors)
  {
    if grp in ProductGroupColors && ProductGroupColors[grp] != "" {
      assert ProductGroupColors[grp] in ProductGroupColors.Values;
    }
  }
}
