// The executive-summary report: month totals, the per-product-group change
// list sorted by the size of its difference, and the top N of that list.
module ReportApi {
  import opened Common
  import Period
  import Sorting
  import DashboardApi

  /** Default of the REPORT_TOP_N setting. */
  const DefaultTopN: int := 5

  /** One row of the month-total query: month and its (nullable) SUM. */
  datatype TotalRow = TotalRow(yyyymm: string, total: Option<real>)

  /** One row of the product-group query: group, current and previous sums. */
  datatype GroupRow = GroupRow(productGrp: string, curr: Option<real>, prev: Option<real>)

  datatype GroupItem = GroupItem(productGrp: string, change: DashboardApi.Change)

  datatype TotalCost = TotalCost(curr: real, prev: real)

  datatype ExecutiveSummary = ExecutiveSummary(
    yyyymm: string, totalCost: TotalCost, byProductGroup: seq<GroupItem>)

  // ---------------------------------------------------------------
  // Totals: `{row[0]: row[1] for row in rows}.get(ym, 0)`
  // ---------------------------------------------------------------

  /**
   * The value the totals dictionary holds for `ym`, or 0 when it holds
   * none. A later row for the same month overwrites an earlier one. The
   * value itself is None when the stored SUM is NULL.
   */
  function TotalGet(rows: seq<TotalRow>, ym: string): Option<real>
  {
    if rows == [] then Some(0.0)
    else if rows[|rows| - 1].yyyymm == ym then rows[|rows| - 1].total
    else TotalGet(rows[..|rows| - 1], ym)
  }

  /** A month without a row reads as 0. */
  lemma {:induction false} TotalGetAbsent(rows: seq<TotalRow>, ym: string)
    requires forall i :: 0 <= i < |rows| ==> rows[i].yyyymm != ym
    ensures TotalGet(rows, ym) == Some(0.0)
  {
    if rows != [] {
      TotalGetAbsent(rows[..|rows| - 1], ym);
    }
  }

  /** A month with rows reads as the total of its last row. */
  lemma {:induction false} TotalGetLast(rows: seq<TotalRow>, ym: string, i: nat)
    requires i < |rows| && rows[i].yyyymm == ym
    requires forall j :: i < j < |rows| ==> rows[j].yyyymm != ym
    ensures TotalGet(rows, ym) == rows[i].total
  {
    if i < |rows| - 1 {
      TotalGetLast(rows[..|rows| - 1], ym, i);
    }
  }

  // ---------------------------------------------------------------
  // Product groups
  // ---------------------------------------------------------------

  /** diff = (curr or 0) - (prev or 0), rate = diff / prev * 100 when prev is non-zero, else 0. */
  function GroupItemOf(row: GroupRow): (g: GroupItem)
    ensures g.productGrp == row.productGrp
    ensures g.change.curr - g.change.prev == g.change.diff
    ensures g.change.prev == DashboardApi.OrZero(row.prev)
    ensures g.change.curr == DashboardApi.OrZero(row.curr)
    ensures row.prev.None? ==> g.change.rate == 0.0
    ensures g.change.prev != 0.0 ==> g.change.rate * g.change.prev == g.change.diff * 100.0
  {
    GroupItem(row.productGrp, DashboardApi.MakeChange(row.curr, row.prev))
  }

  /** The items in query-row order, before sorting. */
  function Unsorted(rows: seq<GroupRow>): (items: seq<GroupItem>)
    ensures |items| == |rows|
  {
    seq(|rows|, i requires 0 <= i < |rows| => GroupItemOf(rows[i]))
  }

  /** Sort key: the size of the difference. */
  function AbsDiff(g: GroupItem): real
  {
    Abs(g.change.diff)
  }

  /** The loop over the group rows, appending one item per row. */
  method BuildGroups(rows: seq<GroupRow>) returns (groups: seq<GroupItem>)
    ensures groups == Unsorted(rows)
  {
    groups := [];
    for i := 0 to |rows|
      invariant groups == Unsorted(rows[..i])
    {
      assert Unsorted(rows[..i + 1]) == Unsorted(rows[..i]) + [GroupItemOf(rows[i])];
      groups := groups + [GroupItemOf(rows[i])];
    }
    assert rows[..|rows|] == rows;
  }

  /** Python's `s[:n]`: a negative n counts from the end. */
  function SliceTo<T>(s: seq<T>, n: int): (r: seq<T>)
    ensures |r| <= |s| && r == s[..|r|]
    ensures n >= 0 ==> |r| == (if n < |s| then n else |s|)
    ensures n < 0 ==> |r| == (if |s| + n > 0 then |s| + n else 0)
  {
    if n >= |s| then s
    else if n >= 0 then s[..n]
    else if |s| + n > 0 then s[..|s| + n]
    else []
  }

  /**
   * The executive summary. None stands for the endpoint failing: rounding
   * a month total that the database returned as NULL raises. Otherwise the
   * totals of the month and its predecessor (0 when absent) and the
   * top-N groups by |diff|, largest first, ties in query order.
   */
  method ExecutiveSummaryReport(yyyymm: string, totalRows: seq<TotalRow>,
                                groupRows: seq<GroupRow>, topN: int)
    returns (r: Option<ExecutiveSummary>, ghost ranked: seq<GroupItem>, ghost perm: seq<nat>)
    requires Period.IsYyyymm(yyyymm)
    ensures var prevMonth := Period.PrevMonth(yyyymm);
      r.None? <==> TotalGet(totalRows, yyyymm).None? || TotalGet(totalRows, prevMonth).None?
    ensures r.Some? ==> r.value.yyyymm == yyyymm
    ensures r.Some? ==> r.value.totalCost == TotalCost(
      TotalGet(totalRows, yyyymm).value, TotalGet(totalRows, Period.PrevMonth(yyyymm)).value)
    ensures Sorting.IsPermutation(perm, |groupRows|)
    ensures Sorting.StableDesc(Unsorted(groupRows), AbsDiff, perm)
    ensures |ranked| == |groupRows|
    ensures forall i :: 0 <= i < |ranked| ==> ranked[i] == GroupItemOf(groupRows[perm[i]])
    ensures r.Some? ==> r.value.byProductGroup == SliceTo(ranked, topN)
    ensures r.Some? && topN >= 0 ==> |r.value.byProductGroup| <= topN
    ensures r.Some? ==> forall i, j :: 0 <= i < |r.value.byProductGroup| <= j < |ranked| ==>
      AbsDiff(r.value.byProductGroup[i]) >= AbsDiff(ranked[j])
  {
    var prevMonth := Period.PrevMonth(yyyymm);
    var groups := BuildGroups(groupRows);
    var sorted;
    sorted, perm := Sorting.SortDesc(groups, AbsDiff);
    ranked := sorted;
    var curr := TotalGet(totalRows, yyyymm);
    var prev := TotalGet(totalRows, prevMonth);
    if curr.None? || prev.None? {
      r := None;
    } else {
      r := Some(ExecutiveSummary(yyyymm, TotalCost(curr.value, prev.value), SliceTo(sorted, topN)));
    }
  }
}
