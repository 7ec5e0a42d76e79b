// The report page: business labels of variance types, the executive
// summary's change rate, grouping of the cost team's variances by
// product/process/cost element, the variance-type badge and the choice of
// report from the route.
module ReportPage {
  import opened Common
  import DashboardApi

  // ---------------------------------------------------------------
  // Variance-type labels
  // ---------------------------------------------------------------

  /** Names of the seven cost elements. */
  const CeNames: map<string, string> := map[
    "CE_DEP" := "감가상각비", "CE_LAB" := "인건비", "CE_PWR" := "전력비",
    "CE_MAT" := "재료비", "CE_MNT" := "수선유지비", "CE_GAS" := "기료비", "CE_OTH" := "기타경비"]

  const RateCostSuffix: string := " 총액 증감"

  /** The variance types with a label of their own. */
  const KnownTypes: set<string> :=
    {"RATE_VAR", "QTY_VAR", "RATE_COST", "RATE_BASE", "PRICE_VAR", "USAGE_VAR"}

  /**
   * The cost-element part of a RATE_COST label: the element's name when
   * it has one, the code itself otherwise, and nothing when the code is
   * missing or empty.
   */
  function CeName(ceCd: Option<string>): (name: string)
    ensures ceCd.None? || ceCd.value == "" ==> name == ""
    ensures ceCd.Some? && ceCd.value in CeNames ==> name == CeNames[ceCd.value]
    ensures ceCd.Some? && ceCd.value != "" && ceCd.value !in CeNames ==> name == ceCd.value
  {
    match ceCd
    case None => ""
    case Some(cd) => if cd == "" then "" else if cd in CeNames then CeNames[cd] else cd
  }

  /** The label shown for a variance type. */
  function VarLabel(varType: string, ceCd: Option<string>): (text: string)
    ensures varType == "RATE_VAR" ==> text == "단위원가 변동"
    ensures varType == "QTY_VAR" ==> text == "생산Mix 변동"
    ensures varType == "RATE_COST" ==> text == CeName(ceCd) + RateCostSuffix
    ensures varType == "RATE_BASE" ==> text == "가동시간 변동"
    ensures varType == "PRICE_VAR" ==> text == "자재 단가 변동"
    ensures varType == "USAGE_VAR" ==> text == "BOM 사용량 변동"
    ensures varType !in KnownTypes ==> text == varType
  {
    match varType
    case "RATE_VAR" => "단위원가 변동"
    case "QTY_VAR" => "생산Mix 변동"
    case "RATE_COST" => CeName(ceCd) + RateCostSuffix
    case "RATE_BASE" => "가동시간 변동"
    case "PRICE_VAR" => "자재 단가 변동"
    case "USAGE_VAR" => "BOM 사용량 변동"
    case _ => varType
  }

  /** A type is shown as itself exactly when it has no label of its own. */
  lemma LabelIsTypeIff(varType: string, ceCd: Option<string>)
    ensures VarLabel(varType, ceCd) == varType <==> varType !in KnownTypes
  {
    if varType == "RATE_COST" {
      var text := VarLabel(varType, ceCd);
      assert text[|text| - 1] == '감';
    }
  }

  /** The label does not depend on the cost element unless the type is RATE_COST. */
  lemma LabelIgnoresCeUnlessRateCost(varType: string, a: Option<string>, b: Option<string>)
    requires varType != "RATE_COST"
    ensures VarLabel(varType, a) == VarLabel(varType, b)
  {
  }

  /** Every RATE_COST label ends with the same suffix after the element's name. */
  lemma RateCostLabelParts(ceCd: Option<string>)
    ensures EndsWith(VarLabel("RATE_COST", ceCd), RateCostSuffix)
    ensures StartsWith(VarLabel("RATE_COST", ceCd), CeName(ceCd))
  {
    var text := VarLabel("RATE_COST", ceCd);
    assert text[|text| - |RateCostSuffix|..] == RateCostSuffix;
    assert text[..|CeName(ceCd)|] == CeName(ceCd);
  }

  // ---------------------------------------------------------------
  // Executive summary
  // ---------------------------------------------------------------

  /** JavaScript's `x || 0` on a number that may be missing. */
  function OrZero(x: Option<real>): (r: real)
    ensures x.Some? ==> r == x.value
    ensures x.None? ==> r == 0.0
  {
    if x.Some? then x.value else 0.0
  }

  /**
   * The change shown above the product-group chart: the difference of
   * the totals, each 0 when missing, and its rate in percent of the
   * previous total, 0 when that total is missing or 0.
   */
  function ExecutiveChange(curr: Option<real>, prev: Option<real>): (r: (real, real))
    ensures r.0 == OrZero(curr) - OrZero(prev)
    ensures prev.None? || prev.value == 0.0 ==> r.1 == 0.0
    ensures prev.Some? && prev.value != 0.0 ==> r.1 * prev.value == r.0 * 100.0
  {
    var diff := OrZero(curr) - OrZero(prev);
    (diff, if prev.Some? && prev.value != 0.0 then diff / prev.value * 100.0 else 0.0)
  }

  /** The page shows the difference and rate the API itself computes from the same totals. */
  lemma ExecutiveChangeAgreesWithApi(curr: Option<real>, prev: Option<real>)
    ensures ExecutiveChange(curr, prev).0 == DashboardApi.MakeChange(curr, prev).diff
    ensures ExecutiveChange(curr, prev).1 == DashboardApi.MakeChange(curr, prev).rate
  {
  }

  // ---------------------------------------------------------------
  // Cost-team grouping
  // ---------------------------------------------------------------

  /** One row of the cost team's variance list. */
  datatype Variance = Variance(
    productGrp: string, productCd: string, procCd: string, ceCd: Option<string>,
    varType: string, varAmt: real, varRate: real)

  /** The head fields of a group's first row together with all rows of the group. */
  datatype Group = Group(head: Variance, items: seq<Variance>)

  /** A template literal renders a missing code as "null". */
  function CodeText(cd: Option<string>): string
  {
    if cd.Some? then cd.value else "null"
  }

  /** The grouping key `product_proc_ce`. */
  function Key(v: Variance): string
  {
    v.productCd + "_" + v.procCd + "_" + CodeText(v.ceCd)
  }

  /** The keys in order of first appearance, as the accumulator object lists them. */
  function KeysOf(vs: seq<Variance>): seq<string>
  {
    if vs == [] then []
    else
      var pre := KeysOf(vs[..|vs| - 1]);
      var k := Key(vs[|vs| - 1]);
      if k in pre then pre else pre + [k]
  }

  /** The accumulator after the reduce has visited `vs`. */
  function GroupsOf(vs: seq<Variance>): map<string, Group>
  {
    if vs == [] then map[]
    else
      var g := GroupsOf(vs[..|vs| - 1]);
      var v := vs[|vs| - 1];
      var k := Key(v);
      if k in g then g[k := Group(g[k].head, g[k].items + [v])]
      else g[k := Group(v, [v])]
  }

  /** The rows whose key is `k`, in input order. */
  function WithKey(vs: seq<Variance>, k: string): (r: seq<Variance>)
    ensures forall i :: 0 <= i < |r| ==> Key(r[i]) == k
    ensures |r| <= |vs|
  {
    if vs == [] then []
    else if Key(vs[|vs| - 1]) == k then WithKey(vs[..|vs| - 1], k) + [vs[|vs| - 1]]
    else WithKey(vs[..|vs| - 1], k)
  }

  /** Index of the first row with key `k`. */
  predicate FirstWithKey(vs: seq<Variance>, k: string, i: int)
  {
    0 <= i < |vs| && Key(vs[i]) == k && forall j :: 0 <= j < i ==> Key(vs[j]) != k
  }

  /**
   * The reduce over the variance rows: a new group, headed by the row,
   * for a key not seen yet; every row appended to its key's group.
   */
  method GroupVariances(vs: seq<Variance>) returns (keys: seq<string>, groups: map<string, Group>)
    ensures keys == KeysOf(vs) && groups == GroupsOf(vs)
  {
    keys := [];
    groups := map[];
    for i := 0 to |vs|
      invariant keys == KeysOf(vs[..i]) && groups == GroupsOf(vs[..i])
    {
      assert vs[..i + 1][..i] == vs[..i];
      var v := vs[i];
      var k := Key(v);
      KeysAreDomain(vs[..i]);
      if k !in groups {
        groups := groups[k := Group(v, [])];
        keys := keys + [k];
        assert [] + [v] == [v];
      }
      groups := groups[k := Group(groups[k].head, groups[k].items + [v])];
    }
    assert vs[..|vs|] == vs;
  }

  /** The listed keys are the keys of the accumulator. */
  lemma {:induction false} KeysAreDomain(vs: seq<Variance>)
    ensures forall k :: k in KeysOf(vs) <==> k in GroupsOf(vs)
  {
    if vs != [] {
      KeysAreDomain(vs[..|vs| - 1]);
    }
  }

  /** Each key is listed once, and exactly the keys of the rows are listed. */
  lemma {:induction false} KeysDistinctAndComplete(vs: seq<Variance>)
    ensures Distinct(KeysOf(vs))
    ensures forall k :: k in KeysOf(vs) <==> exists i :: 0 <= i < |vs| && Key(vs[i]) == k
  {
    if vs != [] {
      var pre := vs[..|vs| - 1];
      KeysDistinctAndComplete(pre);
      forall k | k in KeysOf(vs)
        ensures exists i :: 0 <= i < |vs| && Key(vs[i]) == k
      {
        if k in KeysOf(pre) {
          var i :| 0 <= i < |pre| && Key(pre[i]) == k;
          assert Key(vs[i]) == k;
        } else {
          assert Key(vs[|vs| - 1]) == k;
        }
      }
      forall k | exists i :: 0 <= i < |vs| && Key(vs[i]) == k
        ensures k in KeysOf(vs)
      {
        var i :| 0 <= i < |vs| && Key(vs[i]) == k;
        if i < |vs| - 1 {
          assert Key(pre[i]) == k;
        }
      }
    }
  }

  /** The group of a key holds exactly the rows with that key, in input order. */
  lemma {:induction false} GroupItems(vs: seq<Variance>, k: string)
    requires k in GroupsOf(vs)
    ensures GroupsOf(vs)[k].items == WithKey(vs, k)
  {
    var pre := vs[..|vs| - 1];
    var v := vs[|vs| - 1];
    if Key(v) != k {
      GroupItems(pre, k);
    } else if k in GroupsOf(pre) {
      GroupItems(pre, k);
    } else {
      NoGroupNoRows(pre, k);
    }
  }

  /** The head fields of a group are those of the first row with its key. */
  lemma {:induction false} GroupHead(vs: seq<Variance>, k: string, i: int)
    requires FirstWithKey(vs, k, i)
    ensures k in GroupsOf(vs) && GroupsOf(vs)[k].head == vs[i]
  {
    var pre := vs[..|vs| - 1];
    if i < |vs| - 1 {
      assert FirstWithKey(pre, k, i);
      GroupHead(pre, k, i);
    } else {
      KeysAreDomain(pre);
      KeysDistinctAndComplete(pre);
      assert k !in GroupsOf(pre);
    }
  }

  /** A key without a group has no rows. */
  lemma {:induction false} NoGroupNoRows(vs: seq<Variance>, k: string)
    requires k !in GroupsOf(vs)
    ensures WithKey(vs, k) == []
    ensures forall j :: 0 <= j < |vs| ==> Key(vs[j]) != k
  {
    if vs != [] {
      NoGroupNoRows(vs[..|vs| - 1], k);
    }
  }

  // ---------------------------------------------------------------
  // Badge
  // ---------------------------------------------------------------

  datatype Badge = Info | Warning | Success

  /** A type mentioning RATE is info, else one mentioning PRICE is a warning, else success. */
  function BadgeOf(varType: string): (b: Badge)
    ensures b == Info <==> Contains(varType, "RATE")
    ensures b == Warning <==> !Contains(varType, "RATE") && Contains(varType, "PRICE")
    ensures b == Success <==> !Contains(varType, "RATE") && !Contains(varType, "PRICE")
  {
    if Contains(varType, "RATE") then Info
    else if Contains(varType, "PRICE") then Warning
    else Success
  }

  /** The badges of the six labelled types. */
  lemma KnownTypeBadges()
    ensures BadgeOf("RATE_VAR") == Info && BadgeOf("RATE_COST") == Info && BadgeOf("RATE_BASE") == Info
    ensures BadgeOf("PRICE_VAR") == Warning
    ensures BadgeOf("QTY_VAR") == Success && BadgeOf("USAGE_VAR") == Success
  {
    assert OccursAt("RATE_VAR", "RATE", 0);
    assert OccursAt("RATE_COST", "RATE", 0);
    assert OccursAt("RATE_BASE", "RATE", 0);
    assert OccursAt("PRICE_VAR", "PRICE", 0);
    NoRate("PRICE_VAR");
    NoRate("QTY_VAR");
    NoRate("USAGE_VAR");
    NoPrice("QTY_VAR");
    NoPrice("USAGE_VAR");
  }

  /** No "AT" in `s`, so no "RATE" either. */
  lemma NoRate(s: string)
    requires forall i :: 0 < i < |s| && s[i] == 'T' ==> s[i - 1] != 'A'
    ensures !Contains(s, "RATE")
  {
    forall i | 0 <= i <= |s|
      ensures !OccursAt(s, "RATE", i)
    {
      if i + 4 <= |s| {
        assert s[i..i + 4][1] == s[i + 1] && s[i..i + 4][2] == s[i + 2];
      }
    }
  }

  /** No "PR" in `s`, so no "PRICE" either. */
  lemma NoPrice(s: string)
    requires forall i :: 0 <= i < |s| - 1 && s[i] == 'P' ==> s[i + 1] != 'R'
    ensures !Contains(s, "PRICE")
  {
    forall i | 0 <= i <= |s|
      ensures !OccursAt(s, "PRICE", i)
    {
      if i + 5 <= |s| {
        assert s[i..i + 5][0] == s[i] && s[i..i + 5][1] == s[i + 1];
      }
    }
  }

  // ---------------------------------------------------------------
  // Choosing the report
  // ---------------------------------------------------------------

  datatype ReportKind = Executive | CostTeam | ProductionTeam | PurchaseTeam

  /** The route segment of each report. */
  function RouteName(k: ReportKind): string
  {
    match k
    case Executive => "executive"
    case CostTeam => "cost-team"
    case ProductionTeam => "production-team"
    case PurchaseTeam => "purchase-team"
  }

  function Title(k: ReportKind): string
  {
    match k
    case Executive => "경영진 요약 보고서"
    case CostTeam => "원가팀 상세 보고서"
    case ProductionTeam => "생산팀 보고서"
    case PurchaseTeam => "구매팀 보고서"
  }

  /**
   * The report for the route's `type` parameter: a missing or empty type
   * means the executive report; None is the "report not found" card.
   */
  function ConfigFor(routeType: Option<string>): (r: Option<ReportKind>)
    ensures routeType.None? || routeType.value == "" ==> r == Some(Executive)
    ensures r.Some? ==> routeType.None? || routeType.value == "" || RouteName(r.value) == routeType.value
    ensures r.None? <==> (routeType.Some? && routeType.value != ""
                          && forall k: ReportKind :: RouteName(k) != routeType.value)
  {
    var t := if routeType.None? || routeType.value == "" then "executive" else routeType.value;
    match t
    case "executive" => Some(Executive)
    case "cost-team" => Some(CostTeam)
    case "production-team" => Some(ProductionTeam)
    case "purchase-team" => Some(PurchaseTeam)
    case _ =>
      assert forall k: ReportKind :: RouteName(k) != t;
      None
  }

  /** Every report is reached through its own route, and the route names differ. */
  lemma RouteRoundTrip(k: ReportKind)
    ensures ConfigFor(Some(RouteName(k))) == Some(k)
  {
  }
}
