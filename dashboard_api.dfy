// Result shaping of the dashboard API (backend/app/api/dashboard.py): the
// guarded change rates of the summary endpoints, the node/link assembly of
// the causal graph, the trend pivot and the cost-element drilldown. Query
// results arrive as sequences of rows; SQL and Cypher are not modelled.
module DashboardApi {
  import opened Common
  import Period
  import Sorting
  import VarianceCalc

  // ---------------------------------------------------------------
  // Summary endpoints: current, previous, difference and rate
  // ---------------------------------------------------------------

  /** Python's `x or 0` on a nullable SQL sum. */
  function OrZero(x: Option<real>): real
  {
    match x
    case Some(v) => v
    case None => 0.0
  }

  datatype Change = Change(curr: real, prev: real, diff: real, rate: real)

  /**
   * curr = sum or 0, prev = sum or 0, diff = curr - prev, and the rate in
   * percent of prev, 0 when prev is 0.
   */
  function MakeChange(currSum: Option<real>, prevSum: Option<real>): (c: Change)
    ensures c.curr == OrZero(currSum) && c.prev == OrZero(prevSum)
    ensures c.prev + c.diff == c.curr
    ensures c.prev != 0.0 ==> c.rate * c.prev == c.diff * 100.0
    ensures c.prev == 0.0 ==> c.rate == 0.0
    ensures c.prev > 0.0 ==> (c.rate > 0.0 <==> c.curr > c.prev)
  {
    var curr := OrZero(currSum);
    var prev := OrZero(prevSum);
    Change(curr, prev, curr - prev, PercentOf(curr - prev, prev))
  }

  datatype Keyed<K> = Keyed(key: K, change: Change)

  /**
   * The per-row loop of the by-cost-element and by-product-group endpoints:
   * one item per query row, in row order, with its key columns and change.
   */
  method ChangeItems<K>(rows: seq<(K, Option<real>, Option<real>)>) returns (items: seq<Keyed<K>>)
    ensures |items| == |rows|
    ensures forall i :: 0 <= i < |rows| ==>
      items[i].key == rows[i].0 && items[i].change == MakeChange(rows[i].1, rows[i].2)
  {
    items := [];
    for i := 0 to |rows|
      invariant |items| == i
      invariant forall k :: 0 <= k < i ==>
        items[k].key == rows[k].0 && items[k].change == MakeChange(rows[k].1, rows[k].2)
    {
      var (key, curr, prev) := rows[i];
      items := items + [Keyed(key, MakeChange(curr, prev))];
    }
  }

  /** Rows the query returns sorted by difference stay sorted by difference. */
  lemma ChangeItemsOrdered<K>(rows: seq<(K, Option<real>, Option<real>)>, items: seq<Keyed<K>>)
    requires |items| == |rows|
    requires forall i :: 0 <= i < |rows| ==> items[i].change == MakeChange(rows[i].1, rows[i].2)
    requires forall i, j :: 0 <= i < j < |rows| ==>
      OrZero(rows[i].1) - OrZero(rows[i].2) >= OrZero(rows[j].1) - OrZero(rows[j].2)
    ensures forall i, j :: 0 <= i < j < |items| ==> items[i].change.diff >= items[j].change.diff
  {
    forall i, j | 0 <= i < j < |items|
      ensures items[i].change.diff >= items[j].change.diff
    {
      var a, b := MakeChange(rows[i].1, rows[i].2), MakeChange(rows[j].1, rows[j].2);
      assert a.diff == OrZero(rows[i].1) - OrZero(rows[i].2);
      assert b.diff == OrZero(rows[j].1) - OrZero(rows[j].2);
    }
  }

  // ---------------------------------------------------------------
  // Causal graph: nodes and links for one product
  // ---------------------------------------------------------------

  /** A variance node of the product, as the first query returns it. */
  datatype VarRow = VarRow(varId: string, varType: string, proc: string, ce: string, varAmt: real)
  /** A leaf variance with an event that evidences it. */
  datatype EvRow = EvRow(varId: string, varType: string, ce: string, eventId: string,
                         source: string, description: Option<string>)
  /** A product the rate variances spread to, with its summed amount. */
  datatype SpreadRow = SpreadRow(productCd: string, varAmt: real)

  datatype NodeKind = Product | CostElement | SubVar | Detail | Event | Spread
  datatype Node = Node(id: string, title: string, kind: NodeKind, amt: real, level: nat)
  datatype Link = Link(source: string, target: string, title: string)
  /** The three pieces of state the builder updates: nodes, links and ev_added. */
  datatype Graph = Graph(nodes: seq<Node>, links: seq<Link>, evAdded: set<string>)

  const CeOrder: seq<string> := ["CE_DEP", "CE_LAB", "CE_PWR", "CE_MAT", "CE_MNT", "CE_GAS", "CE_OTH"]

  /** CE_META: display name and allocation basis, the code itself and "" for unknown codes. */
  function CeMeta(ce: string): (string, string)
  {
    if ce == "CE_DEP" then ("감가상각비", "가동시간")
    else if ce == "CE_LAB" then ("인건비", "가동시간")
    else if ce == "CE_PWR" then ("전력비", "가동시간")
    else if ce == "CE_MAT" then ("재료비", "BOM")
    else if ce == "CE_MNT" then ("수선유지비", "가동시간")
    else if ce == "CE_GAS" then ("기료비", "가동시간")
    else if ce == "CE_OTH" then ("기타경비", "가동시간")
    else (ce, "")
  }

  /** The variance types that make up a cost difference (RATE_COST/RATE_BASE only explain RATE_VAR). */
  predicate IsMainType(t: string)
  {
    t == VarianceCalc.RateVar || t == VarianceCalc.QtyVar
    || t == VarianceCalc.PriceVar || t == VarianceCalc.UsageVar
  }

  function MainAmt(v: VarRow): real
  {
    if IsMainType(v.varType) then v.varAmt else 0.0
  }

  /** Σ var_amt over the rows of the four main types. */
  function MainSum(vs: seq<VarRow>): real
  {
    if vs == [] then 0.0 else MainSum(vs[..|vs| - 1]) + MainAmt(vs[|vs| - 1])
  }

  /** Σ var_amt over the rows of one type. */
  function TypeSum(vs: seq<VarRow>, t: string): real
  {
    if vs == [] then 0.0
    else TypeSum(vs[..|vs| - 1], t) + (if vs[|vs| - 1].varType == t then vs[|vs| - 1].varAmt else 0.0)
  }

  /** The four main sums add up to the main total. */
  lemma {:induction false} MainSumByType(vs: seq<VarRow>)
    ensures MainSum(vs) == TypeSum(vs, VarianceCalc.RateVar) + TypeSum(vs, VarianceCalc.QtyVar)
                         + TypeSum(vs, VarianceCalc.PriceVar) + TypeSum(vs, VarianceCalc.UsageVar)
  {
    if vs != [] {
      MainSumByType(vs[..|vs| - 1]);
    }
  }

  /** ce_data[ce]: the variance rows of one cost element, in query order. */
  function CeRows(vs: seq<VarRow>, ce: string): (r: seq<VarRow>)
    ensures forall i :: 0 <= i < |r| ==> r[i].ce == ce
  {
    if vs == [] then []
    else if vs[|vs| - 1].ce == ce then CeRows(vs[..|vs| - 1], ce) + [vs[|vs| - 1]]
    else CeRows(vs[..|vs| - 1], ce)
  }

  lemma CeRowsSnoc(vs: seq<VarRow>, v: VarRow)
    ensures forall c :: CeRows(vs + [v], c) == if v.ce == c then CeRows(vs, c) + [v] else CeRows(vs, c)
  {
    assert (vs + [v])[..|vs|] == vs;
  }

  /**
   * ce_data maps each cost element that occurs in vs to its rows, and keys
   * lists those cost elements once each, as the dict's keys.
   */
  ghost predicate Grouped(vs: seq<VarRow>, keys: seq<string>, ceData: map<string, seq<VarRow>>)
  {
    Distinct(keys)
    && (forall k :: 0 <= k < |keys| ==> keys[k] in ceData)
    && (forall c :: c in ceData ==> c in keys && ceData[c] == CeRows(vs, c) && ceData[c] != [])
    && (forall c :: c !in ceData ==> CeRows(vs, c) == [])
  }

  /** Adding an element's key when absent keeps the keys distinct and all present in the map. */
  lemma GroupKeysStep<V>(keys: seq<string>, ceData: map<string, V>, ce: string, rows: V)
    requires Distinct(keys) && forall k :: 0 <= k < |keys| ==> keys[k] in ceData
    requires forall c :: c in ceData ==> c in keys
    ensures var keys' := if ce in ceData then keys else keys + [ce];
      Distinct(keys') && (forall k :: 0 <= k < |keys'| ==> keys'[k] in ceData[ce := rows])
      && (forall c :: c in ceData[ce := rows] ==> c in keys')
  {
    if ce !in ceData {
      var keys' := keys + [ce];
      forall i, j | 0 <= i < j < |keys'| ensures keys'[i] != keys'[j] {
        if j == |keys| {
          assert keys'[i] == keys[i];
        }
      }
    }
  }

  /** The rows of every element after one more row. */
  lemma GroupRowsStep(vs: seq<VarRow>, v: VarRow, ceData: map<string, seq<VarRow>>, old': seq<VarRow>)
    requires forall c :: c in ceData ==> ceData[c] == CeRows(vs, c) && ceData[c] != []
    requires forall c :: c !in ceData ==> CeRows(vs, c) == []
    requires old' == if v.ce in ceData then ceData[v.ce] else []
    ensures forall c :: c in ceData[v.ce := old' + [v]] ==>
      ceData[v.ce := old' + [v]][c] == CeRows(vs + [v], c) && ceData[v.ce := old' + [v]][c] != []
    ensures forall c :: c !in ceData[v.ce := old' + [v]] ==> CeRows(vs + [v], c) == []
  {
    CeRowsSnoc(vs, v);
  }

  /** The grouping loop of get_graph_data. */
  method GroupByCe(variances: seq<VarRow>) returns (keys: seq<string>, ceData: map<string, seq<VarRow>>)
    ensures Distinct(keys)
    ensures forall k :: 0 <= k < |keys| ==> keys[k] in ceData
    ensures forall c :: c in ceData ==> c in keys && ceData[c] == CeRows(variances, c) && ceData[c] != []
    ensures forall c :: c !in ceData ==> CeRows(variances, c) == []
  {
    keys, ceData := [], map[];
    for j := 0 to |variances|
      invariant Grouped(variances[..j], keys, ceData)
    {
      var v := variances[j];
      assert variances[..j + 1] == variances[..j] + [v];
      var before := if v.ce in ceData then ceData[v.ce] else [];
      GroupKeysStep(keys, ceData, v.ce, before + [v]);
      GroupRowsStep(variances[..j], v, ceData, before);
      if v.ce !in ceData {
        keys := keys + [v.ce];
        ceData := ceData[v.ce := []];
      }
      ceData := ceData[v.ce := ceData[v.ce] + [v]];
    }
    assert variances[..|variances|] == variances;
  }

  /** Σ over a list of cost elements of each element's main total. */
  function SumOverCes(ces: seq<string>, vs: seq<VarRow>): real
  {
    if ces == [] then 0.0 else MainSum(CeRows(vs, ces[0])) + SumOverCes(ces[1..], vs)
  }

  lemma MainSumSnoc(vs: seq<VarRow>, v: VarRow)
    ensures MainSum(vs + [v]) == MainSum(vs) + MainAmt(v)
  {
    assert (vs + [v])[..|vs|] == vs;
  }

  /** The last row adds its main amount to the per-element sum exactly when its element is listed. */
  lemma {:induction false} SumOverCesLast(ces: seq<string>, vs: seq<VarRow>)
    requires Distinct(ces) && vs != []
    ensures var v := vs[|vs| - 1];
      SumOverCes(ces, vs) == SumOverCes(ces, vs[..|vs| - 1]) + (if v.ce in ces then MainAmt(v) else 0.0)
  {
    if ces != [] {
      var v := vs[|vs| - 1];
      var pre := vs[..|vs| - 1];
      var c := ces[0];
      var rest := ces[1..];
      assert Distinct(rest) by {
        forall i, j | 0 <= i < j < |rest| ensures rest[i] != rest[j] {
          assert rest[i] == ces[i + 1] && rest[j] == ces[j + 1];
        }
      }
      SumOverCesLast(rest, vs);
      assert v.ce in ces <==> v.ce == c || v.ce in rest by {
        assert ces == [c] + rest;
      }
      if v.ce == c {
        MainSumSnoc(CeRows(pre, c), v);
        assert v.ce !in rest;
      }
    }
  }

  /** Summing per cost element over distinct codes that cover every row gives the overall main total. */
  lemma {:induction false} SumOverCesIsMainSum(ces: seq<string>, vs: seq<VarRow>)
    requires Distinct(ces)
    requires forall i :: 0 <= i < |vs| ==> vs[i].ce in ces
    ensures SumOverCes(ces, vs) == MainSum(vs)
  {
    if vs == [] {
      SumOverCesEmpty(ces);
    } else {
      var n := |vs| - 1;
      var pre := vs[..n];
      assert forall i :: 0 <= i < |pre| ==> pre[i].ce in ces by {
        forall i | 0 <= i < |pre| ensures pre[i].ce in ces {
          assert pre[i] == vs[i];
        }
      }
      SumOverCesIsMainSum(ces, pre);
      SumOverCesLast(ces, vs);
      assert vs[n].ce in ces;
    }
  }

  lemma {:induction false} SumOverCesEmpty(ces: seq<string>)
    ensures SumOverCes(ces, []) == 0.0
  {
    if ces != [] {
      SumOverCesEmpty(ces[1..]);
    }
  }

  function RootId(productCd: string): string { "PRD_" + productCd }
  function CeId(ce: string): string { "CE_" + ce }

  /** The level-0 node: the product with the total of its main variances. */
  function RootNode(productCd: string, variances: seq<VarRow>): Node
  {
    Node(RootId(productCd), productCd, Product, MainSum(variances), 0)
  }

  /** The level-1 node of one cost element. */
  function CeNode(ce: string, rows: seq<VarRow>): Node
  {
    Node(CeId(ce), CeMeta(ce).0 + " 차이", CostElement, MainSum(rows), 1)
  }

  function EvidenceId(ev: EvRow): string { "EVT_" + ev.eventId }

  /** `description or f"{source} {event_id}"` */
  function EventLabel(ev: EvRow): string
  {
    match ev.description
    case Some(d) => if d != "" then d else ev.source + " " + ev.eventId
    case None => ev.source + " " + ev.eventId
  }

  function EventNode(ev: EvRow): Node
  {
    Node(EvidenceId(ev), EventLabel(ev), Event, 0.0, 4)
  }

  predicate Matches(ev: EvRow, varTypeFilter: string, ceFilter: string)
  {
    ev.varType == varTypeFilter && ev.ce == ceFilter
  }

  /** Append a node and a link to it from an existing node. */
  function AddChild(g: Graph, parentId: string, n: Node, title: string): Graph
  {
    Graph(g.nodes + [n], g.links + [Link(parentId, n.id, title)], g.evAdded)
  }

  /** One iteration of add_evidence_nodes. */
  function EvidenceStep(g: Graph, parentId: string, vt: string, ce: string, ev: EvRow): Graph
  {
    if !Matches(ev, vt, ce) then g
    else
      var eid := EvidenceId(ev);
      var g1 := if eid !in g.evAdded then Graph(g.nodes + [EventNode(ev)], g.links, g.evAdded + {eid}) else g;
      Graph(g1.nodes, g1.links + [Link(parentId, eid, "근거")], g1.evAdded)
  }

  /** add_evidence_nodes: the evidence rows in order, left to right. */
  function EvidenceFold(g: Graph, parentId: string, vt: string, ce: string, evs: seq<EvRow>): Graph
    decreases |evs|
  {
    if evs == [] then g else EvidenceFold(EvidenceStep(g, parentId, vt, ce, evs[0]), parentId, vt, ce, evs[1..])
  }

  /** The link one evidence row contributes. */
  function MatchLink(parentId: string, vt: string, ce: string, ev: EvRow): seq<Link>
  {
    if Matches(ev, vt, ce) then [Link(parentId, EvidenceId(ev), "근거")] else []
  }

  /** One link from the parent per matching evidence row, duplicates included. */
  function MatchLinks(parentId: string, vt: string, ce: string, evs: seq<EvRow>): seq<Link>
  {
    if evs == [] then [] else MatchLink(parentId, vt, ce, evs[0]) + MatchLinks(parentId, vt, ce, evs[1..])
  }

  /** The level-1 (cost element) nodes of each present element of a list, in list order. */
  function CeNodes(ces: seq<string>, vs: seq<VarRow>): seq<Node>
  {
    if ces == [] then []
    else
      var rows := CeRows(vs, ces[0]);
      if rows != [] then [CeNode(ces[0], rows)] + CeNodes(ces[1..], vs) else CeNodes(ces[1..], vs)
  }

  /** One cost element: its node, then either PV/UV (material) or RV→{RC, RB} and QV. */
  function CeStep(g: Graph, rootId: string, ce: string, rows: seq<VarRow>, evs: seq<EvRow>): Graph
  {
    var g1 := AddChild(g, rootId, CeNode(ce, rows), "비용분해");
    if ce == "CE_MAT" then MatBranch(g1, ce, rows, evs) else RateBranch(g1, ce, rows, evs)
  }

  /** Material: the price (PV) and usage (UV) sub-variances, each with its evidence. */
  function MatBranch(g: Graph, ce: string, rows: seq<VarRow>, evs: seq<EvRow>): Graph
  {
    var ceId := CeId(ce);
    var pvId := "SUB_" + ce + "_PV";
    var g2 := AddChild(g, ceId, Node(pvId, "자재 단가 변동", SubVar, TypeSum(rows, VarianceCalc.PriceVar), 2), "분해");
    var g3 := EvidenceFold(g2, pvId, VarianceCalc.PriceVar, ce, evs);
    var uvId := "SUB_" + ce + "_UV";
    var g4 := AddChild(g3, ceId, Node(uvId, "BOM 사용량 변동", SubVar, TypeSum(rows, VarianceCalc.UsageVar), 2), "분해");
    EvidenceFold(g4, uvId, VarianceCalc.UsageVar, ce, evs)
  }

  /** Other elements: the rate sub-variance (RV) with its cost (RC) and basis (RB) details, then QV. */
  function RateBranch(g: Graph, ce: string, rows: seq<VarRow>, evs: seq<EvRow>): Graph
  {
    var name := CeMeta(ce).0;
    var basis := CeMeta(ce).1;
    var ceId := CeId(ce);
    var rvId := "SUB_" + ce + "_RV";
    var g2 := AddChild(g, ceId, Node(rvId, "단위원가 변동", SubVar, TypeSum(rows, VarianceCalc.RateVar), 2), "분해");
    var rcId := "DET_" + ce + "_RC";
    var g3 := AddChild(g2, rvId, Node(rcId, name + " 총액 증감", Detail, TypeSum(rows, VarianceCalc.RateCost), 3), "원인");
    var rbId := "DET_" + ce + "_RB";
    var g4 := AddChild(g3, rvId, Node(rbId, basis + " 변동", Detail, TypeSum(rows, VarianceCalc.RateBase), 3), "원인");
    var g5 := EvidenceFold(g4, rbId, VarianceCalc.RateBase, ce, evs);
    var qvId := "SUB_" + ce + "_QV";
    AddChild(g5, ceId, Node(qvId, "생산Mix 변동", SubVar, TypeSum(rows, VarianceCalc.QtyVar), 2), "분해")
  }

  /** The loop over ce_order, skipping absent elements. */
  function CeFold(g: Graph, rootId: string, ces: seq<string>, vs: seq<VarRow>, evs: seq<EvRow>): Graph
    decreases |ces|
  {
    if ces == [] then g
    else
      var rows := CeRows(vs, ces[0]);
      var g1 := if rows != [] then CeStep(g, rootId, ces[0], rows, evs) else g;
      CeFold(g1, rootId, ces[1..], vs, evs)
  }

  function SpreadNode(sp: SpreadRow): Node
  {
    Node("SPR_" + sp.productCd, sp.productCd, Spread, sp.varAmt, 5)
  }

  /** The level-5 loop: one node and one root link per spread product. */
  function SpreadFold(g: Graph, rootId: string, spreads: seq<SpreadRow>): Graph
    decreases |spreads|
  {
    if spreads == [] then g
    else SpreadFold(AddChild(g, rootId, SpreadNode(spreads[0]), "파급(SPREADS_TO)"), rootId, spreads[1..])
  }

  /** The whole graph: root, then the cost elements in ce_order, then the spread products. */
  function GraphData(productCd: string, variances: seq<VarRow>, evs: seq<EvRow>, spreads: seq<SpreadRow>): Graph
  {
    BuildGraph(CeOrder, productCd, variances, evs, spreads)
  }

  /** The same assembly for any list of cost element codes in place of ce_order. */
  function BuildGraph(ces: seq<string>, productCd: string, variances: seq<VarRow>, evs: seq<EvRow>,
                      spreads: seq<SpreadRow>): Graph
  {
    SpreadFold(AfterCes(ces, productCd, variances, evs), RootId(productCd), spreads)
  }

  /** The graph after the cost elements, before the spread products. */
  function AfterCes(ces: seq<string>, productCd: string, variances: seq<VarRow>, evs: seq<EvRow>): Graph
  {
    CeFold(Graph([RootNode(productCd, variances)], [], {}), RootId(productCd), ces, variances, evs)
  }

  // -- invariants of the builder state --

  function NodeIds(nodes: seq<Node>): set<string>
  {
    if nodes == [] then {} else NodeIds(nodes[..|nodes| - 1]) + {nodes[|nodes| - 1].id}
  }

  function EventIds(nodes: seq<Node>): set<string>
  {
    if nodes == [] then {}
    else EventIds(nodes[..|nodes| - 1]) + (if nodes[|nodes| - 1].kind == Event then {nodes[|nodes| - 1].id} else {})
  }

  /** Every event node was appended with an id no earlier event node has. */
  predicate EventsOnce(nodes: seq<Node>)
  {
    nodes == [] ||
    (EventsOnce(nodes[..|nodes| - 1])
     && (nodes[|nodes| - 1].kind == Event ==> nodes[|nodes| - 1].id !in EventIds(nodes[..|nodes| - 1])))
  }

  /** Every link joins two nodes that are already there. */
  predicate LinksClosed(nodes: seq<Node>, links: seq<Link>)
  {
    forall k :: 0 <= k < |links| ==> links[k].source in NodeIds(nodes) && links[k].target in NodeIds(nodes)
  }

  /** ev_added is the set of event node ids, each event node is unique, and links are closed. */
  predicate Wf(g: Graph)
  {
    g.evAdded == EventIds(g.nodes) && EventsOnce(g.nodes) && LinksClosed(g.nodes, g.links)
  }

  /** r extends the nodes of g, so every id of g is still there. */
  predicate Grows(g: Graph, r: Graph)
  {
    g.nodes <= r.nodes && NodeIds(g.nodes) <= NodeIds(r.nodes)
  }

  /** The cost element (level 1) nodes among a list of nodes, in order. */
  function CeLevel(nodes: seq<Node>): seq<Node>
  {
    if nodes == [] then []
    else if nodes[|nodes| - 1].level == 1 then CeLevel(nodes[..|nodes| - 1]) + [nodes[|nodes| - 1]]
    else CeLevel(nodes[..|nodes| - 1])
  }

  lemma AppendNode(nodes: seq<Node>, n: Node)
    ensures NodeIds(nodes + [n]) == NodeIds(nodes) + {n.id}
    ensures EventIds(nodes + [n]) == EventIds(nodes) + (if n.kind == Event then {n.id} else {})
    ensures EventsOnce(nodes + [n]) <==> EventsOnce(nodes) && (n.kind == Event ==> n.id !in EventIds(nodes))
    ensures nodes <= nodes + [n]
  {
    assert (nodes + [n])[..|nodes|] == nodes;
  }

  lemma AppendLevel(nodes: seq<Node>, n: Node)
    ensures CeLevel(nodes + [n]) == if n.level == 1 then CeLevel(nodes) + [n] else CeLevel(nodes)
  {
    assert (nodes + [n])[..|nodes|] == nodes;
  }

  lemma {:induction false} EventIdsCover(nodes: seq<Node>)
    ensures EventIds(nodes) <= NodeIds(nodes)
    ensures forall i :: 0 <= i < |nodes| && nodes[i].kind == Event ==> nodes[i].id in EventIds(nodes)
  {
    if nodes != [] {
      var n := |nodes| - 1;
      EventIdsCover(nodes[..n]);
      forall i | 0 <= i < |nodes| && nodes[i].kind == Event
        ensures nodes[i].id in EventIds(nodes)
      {
        if i < n {
          assert nodes[..n][i] == nodes[i];
        }
      }
    }
  }

  /** The recursive form of EventsOnce means: no two event nodes share an id. */
  lemma {:induction false} EventsOnceDistinct(nodes: seq<Node>)
    requires EventsOnce(nodes)
    ensures forall i, j :: 0 <= i < j < |nodes| && nodes[i].kind == Event && nodes[j].kind == Event ==>
      nodes[i].id != nodes[j].id
  {
    if nodes != [] {
      var n := |nodes| - 1;
      var pre := nodes[..n];
      EventsOnceDistinct(pre);
      EventIdsCover(pre);
      forall i, j | 0 <= i < j < |nodes| && nodes[i].kind == Event && nodes[j].kind == Event
        ensures nodes[i].id != nodes[j].id
      {
        assert nodes[i] == pre[i];
        if j < n {
          assert nodes[j] == pre[j];
        }
      }
    }
  }

  lemma AddChildKeeps(g: Graph, parentId: string, n: Node, title: string)
    requires Wf(g) && parentId in NodeIds(g.nodes) && n.kind != Event
    ensures var r := AddChild(g, parentId, n, title); Wf(r) && Grows(g, r) && n.id in NodeIds(r.nodes)
  {
    AppendNode(g.nodes, n);
  }

  lemma EvidenceStepKeeps(g: Graph, parentId: string, vt: string, ce: string, ev: EvRow)
    requires Wf(g) && parentId in NodeIds(g.nodes)
    ensures var r := EvidenceStep(g, parentId, vt, ce, ev); Wf(r) && Grows(g, r)
  {
    if Matches(ev, vt, ce) {
      EventIdsCover(g.nodes);
      if EvidenceId(ev) !in g.evAdded {
        AppendNode(g.nodes, EventNode(ev));
      }
    }
  }

  lemma {:induction false} EvidenceFoldKeeps(g: Graph, parentId: string, vt: string, ce: string, evs: seq<EvRow>)
    requires Wf(g) && parentId in NodeIds(g.nodes)
    ensures var r := EvidenceFold(g, parentId, vt, ce, evs); Wf(r) && Grows(g, r)
    decreases |evs|
  {
    if evs != [] {
      var g1 := EvidenceStep(g, parentId, vt, ce, evs[0]);
      EvidenceStepKeeps(g, parentId, vt, ce, evs[0]);
      EvidenceFoldKeeps(g1, parentId, vt, ce, evs[1..]);
    }
  }

  /** add_evidence_nodes appends one link per matching row and no cost element node. */
  lemma {:induction false} EvidenceFoldAppends(g: Graph, parentId: string, vt: string, ce: string, evs: seq<EvRow>)
    ensures var r := EvidenceFold(g, parentId, vt, ce, evs);
      CeLevel(r.nodes) == CeLevel(g.nodes) && r.links == g.links + MatchLinks(parentId, vt, ce, evs)
    decreases |evs|
  {
    if evs != [] {
      var ev := evs[0];
      var g1 := EvidenceStep(g, parentId, vt, ce, ev);
      if Matches(ev, vt, ce) && EvidenceId(ev) !in g.evAdded {
        AppendLevel(g.nodes, EventNode(ev));
      }
      EvidenceFoldAppends(g1, parentId, vt, ce, evs[1..]);
      AppendAssoc(g.links, MatchLink(parentId, vt, ce, ev), MatchLinks(parentId, vt, ce, evs[1..]));
    }
  }

  /** A cost element keeps the builder invariant. */
  lemma CeStepKeeps(g: Graph, rootId: string, ce: string, rows: seq<VarRow>, evs: seq<EvRow>)
    requires Wf(g) && rootId in NodeIds(g.nodes)
    ensures var r := CeStep(g, rootId, ce, rows, evs); Wf(r) && Grows(g, r)
  {
    var g1 := AddChild(g, rootId, CeNode(ce, rows), "비용분해");
    AddChildKeeps(g, rootId, CeNode(ce, rows), "비용분해");
    if ce == "CE_MAT" {
      MatBranchKeeps(g1, ce, rows, evs);
    } else {
      RateBranchKeeps(g1, ce, rows, evs);
    }
  }

  lemma MatBranchKeeps(g: Graph, ce: string, rows: seq<VarRow>, evs: seq<EvRow>)
    requires Wf(g) && CeId(ce) in NodeIds(g.nodes)
    ensures var r := MatBranch(g, ce, rows, evs); Wf(r) && Grows(g, r)
  {
    var ceId := CeId(ce);
    var pvId := "SUB_" + ce + "_PV";
    var pv := Node(pvId, "자재 단가 변동", SubVar, TypeSum(rows, VarianceCalc.PriceVar), 2);
    var g2 := AddChild(g, ceId, pv, "분해");
    AddChildKeeps(g, ceId, pv, "분해");
    var g3 := EvidenceFold(g2, pvId, VarianceCalc.PriceVar, ce, evs);
    EvidenceFoldKeeps(g2, pvId, VarianceCalc.PriceVar, ce, evs);
    var uvId := "SUB_" + ce + "_UV";
    var uv := Node(uvId, "BOM 사용량 변동", SubVar, TypeSum(rows, VarianceCalc.UsageVar), 2);
    var g4 := AddChild(g3, ceId, uv, "분해");
    AddChildKeeps(g3, ceId, uv, "분해");
    EvidenceFoldKeeps(g4, uvId, VarianceCalc.UsageVar, ce, evs);
  }

  lemma RateBranchKeeps(g: Graph, ce: string, rows: seq<VarRow>, evs: seq<EvRow>)
    requires Wf(g) && CeId(ce) in NodeIds(g.nodes)
    ensures var r := RateBranch(g, ce, rows, evs); Wf(r) && Grows(g, r)
  {
    var ceId := CeId(ce);
    var rvId := "SUB_" + ce + "_RV";
    var rv := Node(rvId, "단위원가 변동", SubVar, TypeSum(rows, VarianceCalc.RateVar), 2);
    var g2 := AddChild(g, ceId, rv, "분해");
    AddChildKeeps(g, ceId, rv, "분해");
    var rc := Node("DET_" + ce + "_RC", CeMeta(ce).0 + " 총액 증감", Detail, TypeSum(rows, VarianceCalc.RateCost), 3);
    var g3 := AddChild(g2, rvId, rc, "원인");
    AddChildKeeps(g2, rvId, rc, "원인");
    var rbId := "DET_" + ce + "_RB";
    var rb := Node(rbId, CeMeta(ce).1 + " 변동", Detail, TypeSum(rows, VarianceCalc.RateBase), 3);
    var g4 := AddChild(g3, rvId, rb, "원인");
    AddChildKeeps(g3, rvId, rb, "원인");
    var g5 := EvidenceFold(g4, rbId, VarianceCalc.RateBase, ce, evs);
    EvidenceFoldKeeps(g4, rbId, VarianceCalc.RateBase, ce, evs);
    var qv := Node("SUB_" + ce + "_QV", "생산Mix 변동", SubVar, TypeSum(rows, VarianceCalc.QtyVar), 2);
    AddChildKeeps(g5, ceId, qv, "분해");
  }

  /** A cost element appends exactly one level-1 node, its own. */
  lemma CeStepLevel(g: Graph, rootId: string, ce: string, rows: seq<VarRow>, evs: seq<EvRow>)
    ensures CeLevel(CeStep(g, rootId, ce, rows, evs).nodes) == CeLevel(g.nodes) + [CeNode(ce, rows)]
  {
    var g1 := AddChild(g, rootId, CeNode(ce, rows), "비용분해");
    AppendLevel(g.nodes, CeNode(ce, rows));
    if ce == "CE_MAT" {
      MatBranchLevel(g1, ce, rows, evs);
    } else {
      RateBranchLevel(g1, ce, rows, evs);
    }
  }

  lemma MatBranchLevel(g: Graph, ce: string, rows: seq<VarRow>, evs: seq<EvRow>)
    ensures CeLevel(MatBranch(g, ce, rows, evs).nodes) == CeLevel(g.nodes)
  {
    var ceId := CeId(ce);
    var pvId := "SUB_" + ce + "_PV";
    var pv := Node(pvId, "자재 단가 변동", SubVar, TypeSum(rows, VarianceCalc.PriceVar), 2);
    var g2 := AddChild(g, ceId, pv, "분해");
    AppendLevel(g.nodes, pv);
    var g3 := EvidenceFold(g2, pvId, VarianceCalc.PriceVar, ce, evs);
    EvidenceFoldAppends(g2, pvId, VarianceCalc.PriceVar, ce, evs);
    var uvId := "SUB_" + ce + "_UV";
    var uv := Node(uvId, "BOM 사용량 변동", SubVar, TypeSum(rows, VarianceCalc.UsageVar), 2);
    var g4 := AddChild(g3, ceId, uv, "분해");
    AppendLevel(g3.nodes, uv);
    EvidenceFoldAppends(g4, uvId, VarianceCalc.UsageVar, ce, evs);
  }

  lemma RateBranchLevel(g: Graph, ce: string, rows: seq<VarRow>, evs: seq<EvRow>)
    ensures CeLevel(RateBranch(g, ce, rows, evs).nodes) == CeLevel(g.nodes)
  {
    var ceId := CeId(ce);
    var rvId := "SUB_" + ce + "_RV";
    var rv := Node(rvId, "단위원가 변동", SubVar, TypeSum(rows, VarianceCalc.RateVar), 2);
    var g2 := AddChild(g, ceId, rv, "분해");
    AppendLevel(g.nodes, rv);
    var rc := Node("DET_" + ce + "_RC", CeMeta(ce).0 + " 총액 증감", Detail, TypeSum(rows, VarianceCalc.RateCost), 3);
    var g3 := AddChild(g2, rvId, rc, "원인");
    AppendLevel(g2.nodes, rc);
    var rbId := "DET_" + ce + "_RB";
    var rb := Node(rbId, CeMeta(ce).1 + " 변동", Detail, TypeSum(rows, VarianceCalc.RateBase), 3);
    var g4 := AddChild(g3, rvId, rb, "원인");
    AppendLevel(g3.nodes, rb);
    var g5 := EvidenceFold(g4, rbId, VarianceCalc.RateBase, ce, evs);
    EvidenceFoldAppends(g4, rbId, VarianceCalc.RateBase, ce, evs);
    var qv := Node("SUB_" + ce + "_QV", "생산Mix 변동", SubVar, TypeSum(rows, VarianceCalc.QtyVar), 2);
    AppendLevel(g5.nodes, qv);
  }

  lemma {:induction false} CeFoldKeeps(g: Graph, rootId: string, ces: seq<string>, vs: seq<VarRow>, evs: seq<EvRow>)
    requires Wf(g) && rootId in NodeIds(g.nodes)
    ensures var r := CeFold(g, rootId, ces, vs, evs); Wf(r) && Grows(g, r)
    decreases |ces|
  {
    if ces != [] {
      var rows := CeRows(vs, ces[0]);
      var g1 := if rows != [] then CeStep(g, rootId, ces[0], rows, evs) else g;
      if rows != [] {
        CeStepKeeps(g, rootId, ces[0], rows, evs);
      }
      CeFoldKeeps(g1, rootId, ces[1..], vs, evs);
    }
  }

  lemma {:induction false} CeFoldLevel(g: Graph, rootId: string, ces: seq<string>, vs: seq<VarRow>, evs: seq<EvRow>)
    ensures CeLevel(CeFold(g, rootId, ces, vs, evs).nodes) == CeLevel(g.nodes) + CeNodes(ces, vs)
    decreases |ces|
  {
    if ces != [] {
      var rows := CeRows(vs, ces[0]);
      var g1 := if rows != [] then CeStep(g, rootId, ces[0], rows, evs) else g;
      if rows != [] {
        CeStepLevel(g, rootId, ces[0], rows, evs);
        AppendAssoc(CeLevel(g.nodes), [CeNode(ces[0], rows)], CeNodes(ces[1..], vs));
      }
      CeFoldLevel(g1, rootId, ces[1..], vs, evs);
    }
  }

  lemma {:induction false} SpreadFoldKeeps(g: Graph, rootId: string, spreads: seq<SpreadRow>)
    requires Wf(g) && rootId in NodeIds(g.nodes)
    ensures var r := SpreadFold(g, rootId, spreads); Wf(r) && Grows(g, r)
    decreases |spreads|
  {
    if spreads != [] {
      var g1 := AddChild(g, rootId, SpreadNode(spreads[0]), "파급(SPREADS_TO)");
      AddChildKeeps(g, rootId, SpreadNode(spreads[0]), "파급(SPREADS_TO)");
      SpreadFoldKeeps(g1, rootId, spreads[1..]);
    }
  }

  lemma {:induction false} SpreadFoldLevel(g: Graph, rootId: string, spreads: seq<SpreadRow>)
    ensures CeLevel(SpreadFold(g, rootId, spreads).nodes) == CeLevel(g.nodes)
    decreases |spreads|
  {
    if spreads != [] {
      var g1 := AddChild(g, rootId, SpreadNode(spreads[0]), "파급(SPREADS_TO)");
      AppendLevel(g.nodes, SpreadNode(spreads[0]));
      SpreadFoldLevel(g1, rootId, spreads[1..]);
    }
  }

  lemma RootStartsWf(productCd: string, variances: seq<VarRow>)
    ensures var g0 := Graph([RootNode(productCd, variances)], [], {});
      Wf(g0) && RootId(productCd) in NodeIds(g0.nodes) && CeLevel(g0.nodes) == []
  {
    var root := RootNode(productCd, variances);
    AppendNode([], root);
    AppendLevel([], root);
    assert [] + [root] == [root];
  }

  /**
   * The assembled graph for any list of cost element codes: the root comes
   * first at level 0 with the main total, every link joins nodes added before
   * it, no event node is added twice, and the cost element nodes are those of
   * the listed codes that occur among the variances, in list order.
   */
  lemma BuildGraphShape(ces: seq<string>, productCd: string, variances: seq<VarRow>, evs: seq<EvRow>,
                        spreads: seq<SpreadRow>)
    ensures var g := BuildGraph(ces, productCd, variances, evs, spreads);
      |g.nodes| >= 1 && g.nodes[0] == RootNode(productCd, variances) && g.nodes[0].level == 0
      && LinksClosed(g.nodes, g.links) && EventsOnce(g.nodes)
      && CeLevel(g.nodes) == CeNodes(ces, variances)
  {
    var g0 := Graph([RootNode(productCd, variances)], [], {});
    RootStartsWf(productCd, variances);
    var g1 := AfterCes(ces, productCd, variances, evs);
    CeFoldKeeps(g0, RootId(productCd), ces, variances, evs);
    CeFoldLevel(g0, RootId(productCd), ces, variances, evs);
    SpreadFoldKeeps(g1, RootId(productCd), spreads);
    SpreadFoldLevel(g1, RootId(productCd), spreads);
    var g := BuildGraph(ces, productCd, variances, evs, spreads);
    assert g0.nodes <= g.nodes;
    assert g.nodes[0] == g0.nodes[0];
  }

  /**
   * get_graph_data's graph: root first at level 0, links between earlier
   * nodes, each event node once, and the cost elements in ce_order.
   */
  lemma GraphDataShape(productCd: string, variances: seq<VarRow>, evs: seq<EvRow>, spreads: seq<SpreadRow>)
    ensures var g := GraphData(productCd, variances, evs, spreads);
      |g.nodes| >= 1 && g.nodes[0] == RootNode(productCd, variances) && g.nodes[0].level == 0
      && LinksClosed(g.nodes, g.links)
      && (forall i, j :: 0 <= i < j < |g.nodes| && g.nodes[i].kind == Event && g.nodes[j].kind == Event ==>
            g.nodes[i].id != g.nodes[j].id)
      && CeLevel(g.nodes) == CeNodes(CeOrder, variances)
  {
    BuildGraphShape(CeOrder, productCd, variances, evs, spreads);
    EventsOnceDistinct(GraphData(productCd, variances, evs, spreads).nodes);
  }

  /**
   * Each evidence parent gets one link per matching evidence row, whether or
   * not the event node was already there, and no other link.
   */
  lemma {:induction false} EvidenceLinks(parentId: string, vt: string, ce: string, evs: seq<EvRow>)
    ensures forall i :: 0 <= i < |evs| && Matches(evs[i], vt, ce) ==>
      Link(parentId, EvidenceId(evs[i]), "근거") in MatchLinks(parentId, vt, ce, evs)
    ensures forall l :: l in MatchLinks(parentId, vt, ce, evs) ==>
      l.source == parentId && exists i :: 0 <= i < |evs| && Matches(evs[i], vt, ce) && l.target == EvidenceId(evs[i])
  {
    if evs != [] {
      EvidenceLinks(parentId, vt, ce, evs[1..]);
      var ml := MatchLinks(parentId, vt, ce, evs);
      forall i | 0 <= i < |evs| && Matches(evs[i], vt, ce)
        ensures Link(parentId, EvidenceId(evs[i]), "근거") in ml
      {
        if i > 0 {
          assert evs[1..][i - 1] == evs[i];
        }
      }
      forall l | l in ml
        ensures l.source == parentId && exists i :: 0 <= i < |evs| && Matches(evs[i], vt, ce) && l.target == EvidenceId(evs[i])
      {
        if l !in MatchLink(parentId, vt, ce, evs[0]) {
          assert l in MatchLinks(parentId, vt, ce, evs[1..]);
          var i :| 0 <= i < |evs[1..]| && Matches(evs[1..][i], vt, ce) && l.target == EvidenceId(evs[1..][i]);
          assert evs[1..][i] == evs[i + 1];
        }
      }
    }
  }

  /**
   * When the code list is duplicate-free and covers every variance, the root
   * value is the sum of the cost element node values.
   */
  lemma RootIsSumOfElements(ces: seq<string>, productCd: string, variances: seq<VarRow>, evs: seq<EvRow>,
                            spreads: seq<SpreadRow>)
    requires Distinct(ces)
    requires forall i :: 0 <= i < |variances| ==> variances[i].ce in ces
    ensures var g := BuildGraph(ces, productCd, variances, evs, spreads);
      |g.nodes| >= 1 && g.nodes[0].amt == AmtSum(CeLevel(g.nodes))
  {
    BuildGraphShape(ces, productCd, variances, evs, spreads);
    SumOverCesIsMainSum(ces, variances);
    CeNodesAmt(ces, variances);
  }

  function AmtSum(nodes: seq<Node>): real
  {
    if nodes == [] then 0.0 else nodes[0].amt + AmtSum(nodes[1..])
  }

  lemma {:induction false} CeNodesAmt(ces: seq<string>, vs: seq<VarRow>)
    ensures AmtSum(CeNodes(ces, vs)) == SumOverCes(ces, vs)
  {
    if ces != [] {
      CeNodesAmt(ces[1..], vs);
      var rows := CeRows(vs, ces[0]);
      if rows != [] {
        AmtSumAppend([CeNode(ces[0], rows)], CeNodes(ces[1..], vs));
      }
    }
  }

  lemma {:induction false} AmtSumAppend(a: seq<Node>, b: seq<Node>)
    ensures AmtSum(a + b) == AmtSum(a) + AmtSum(b)
  {
    if a != [] {
      assert (a + b)[0] == a[0] && (a + b)[1..] == a[1..] + b;
      AmtSumAppend(a[1..], b);
    } else {
      assert a + b == b;
    }
  }

  // -- the builder as the endpoint writes it --

  /** add_evidence_nodes over the nodes/links/ev_added state. */
  method AddEvidenceNodes(nodes: seq<Node>, links: seq<Link>, evAdded: set<string>, evidences: seq<EvRow>,
                          parentId: string, varTypeFilter: string, ceFilter: string)
    returns (nodes': seq<Node>, links': seq<Link>, evAdded': set<string>)
    ensures Graph(nodes', links', evAdded')
         == EvidenceFold(Graph(nodes, links, evAdded), parentId, varTypeFilter, ceFilter, evidences)
  {
    nodes', links', evAdded' := nodes, links, evAdded;
    assert evidences[0..] == evidences;
    for i := 0 to |evidences|
      invariant EvidenceFold(Graph(nodes', links', evAdded'), parentId, varTypeFilter, ceFilter, evidences[i..])
             == EvidenceFold(Graph(nodes, links, evAdded), parentId, varTypeFilter, ceFilter, evidences)
    {
      var ev := evidences[i];
      assert evidences[i..][1..] == evidences[i + 1..];
      if ev.varType != varTypeFilter || ev.ce != ceFilter {
        continue;
      }
      var eid := "EVT_" + ev.eventId;
      if eid !in evAdded' {
        nodes' := nodes' + [Node(eid, EventLabel(ev), Event, 0.0, 4)];
        evAdded' := evAdded' + {eid};
      }
      links' := links' + [Link(parentId, eid, "근거")];
    }
  }

  /** The body of the ce_order loop for one present cost element. */
  method AddCostElement(nodes: seq<Node>, links: seq<Link>, evAdded: set<string>, evidences: seq<EvRow>,
                        rootId: string, ce: string, varsList: seq<VarRow>)
    returns (nodes': seq<Node>, links': seq<Link>, evAdded': set<string>)
    ensures Graph(nodes', links', evAdded') == CeStep(Graph(nodes, links, evAdded), rootId, ce, varsList, evidences)
  {
    var name, basis := CeMeta(ce).0, CeMeta(ce).1;
    var ceTotal := MainSum(varsList);
    var ceId := "CE_" + ce;
    nodes' := nodes + [Node(ceId, name + " 차이", CostElement, ceTotal, 1)];
    links' := links + [Link(rootId, ceId, "비용분해")];
    evAdded' := evAdded;
    if ce == "CE_MAT" {
      var pvId := "SUB_" + ce + "_PV";
      nodes' := nodes' + [Node(pvId, "자재 단가 변동", SubVar, TypeSum(varsList, VarianceCalc.PriceVar), 2)];
      links' := links' + [Link(ceId, pvId, "분해")];
      nodes', links', evAdded' := AddEvidenceNodes(nodes', links', evAdded', evidences, pvId, VarianceCalc.PriceVar, ce);
      var uvId := "SUB_" + ce + "_UV";
      nodes' := nodes' + [Node(uvId, "BOM 사용량 변동", SubVar, TypeSum(varsList, VarianceCalc.UsageVar), 2)];
      links' := links' + [Link(ceId, uvId, "분해")];
      nodes', links', evAdded' := AddEvidenceNodes(nodes', links', evAdded', evidences, uvId, VarianceCalc.UsageVar, ce);
    } else {
      var rvId := "SUB_" + ce + "_RV";
      nodes' := nodes' + [Node(rvId, "단위원가 변동", SubVar, TypeSum(varsList, VarianceCalc.RateVar), 2)];
      links' := links' + [Link(ceId, rvId, "분해")];
      var rcId := "DET_" + ce + "_RC";
      nodes' := nodes' + [Node(rcId, name + " 총액 증감", Detail, TypeSum(varsList, VarianceCalc.RateCost), 3)];
      links' := links' + [Link(rvId, rcId, "원인")];
      var rbId := "DET_" + ce + "_RB";
      nodes' := nodes' + [Node(rbId, basis + " 변동", Detail, TypeSum(varsList, VarianceCalc.RateBase), 3)];
      links' := links' + [Link(rvId, rbId, "원인")];
      nodes', links', evAdded' := AddEvidenceNodes(nodes', links', evAdded', evidences, rbId, VarianceCalc.RateBase, ce);
      var qvId := "SUB_" + ce + "_QV";
      nodes' := nodes' + [Node(qvId, "생산Mix 변동", SubVar, TypeSum(varsList, VarianceCalc.QtyVar), 2)];
      links' := links' + [Link(ceId, qvId, "분해")];
    }
  }

  /** The main-type total over the groups in dict order, as the endpoint accumulates it. */
  method TotalVar(keys: seq<string>, ceData: map<string, seq<VarRow>>, ghost variances: seq<VarRow>)
    returns (totalVar: real)
    requires forall j :: 0 <= j < |keys| ==> keys[j] in ceData && ceData[keys[j]] == CeRows(variances, keys[j])
    ensures totalVar == SumOverCes(keys, variances)
  {
    totalVar := 0.0;
    assert keys[0..] == keys;
    for k := 0 to |keys|
      invariant totalVar + SumOverCes(keys[k..], variances) == SumOverCes(keys, variances)
    {
      assert keys[k..][1..] == keys[k + 1..];
      var ceVars := ceData[keys[k]];
      ghost var before := totalVar;
      for i := 0 to |ceVars|
        invariant totalVar == before + MainSum(ceVars[..i])
      {
        assert ceVars[..i + 1][..i] == ceVars[..i];
        var v := ceVars[i];
        if v.varType in [VarianceCalc.RateVar, VarianceCalc.QtyVar, VarianceCalc.PriceVar, VarianceCalc.UsageVar] {
          totalVar := totalVar + v.varAmt;
        }
      }
      assert ceVars[..|ceVars|] == ceVars;
    }
  }

  /** get_graph_data after its three queries: the nodes and links of the causal graph. */
  method GetGraphData(productCd: string, variances: seq<VarRow>, evidences: seq<EvRow>, spreads: seq<SpreadRow>)
    returns (nodes: seq<Node>, links: seq<Link>)
    ensures nodes == GraphData(productCd, variances, evidences, spreads).nodes
    ensures links == GraphData(productCd, variances, evidences, spreads).links
  {
    var keys, ceData := GroupByCe(variances);
    var evAdded: set<string> := {};

    var totalVar := TotalVar(keys, ceData, variances);
    assert totalVar == MainSum(variances) by {
      forall i | 0 <= i < |variances| ensures variances[i].ce in keys {
        CeRowsHas(variances, i);
      }
      SumOverCesIsMainSum(keys, variances);
    }

    var rootId := "PRD_" + productCd;
    nodes := [Node(rootId, productCd, Product, totalVar, 0)];
    links := [];

    var g1 := AddCostElements(Graph(nodes, links, evAdded), rootId, CeOrder, ceData, variances, evidences);
    var g2 := AddSpreadNodes(g1, rootId, spreads);
    nodes, links := g2.nodes, g2.links;
  }

  /** The loop over ce_order in get_graph_data, skipping elements absent from ce_data. */
  method AddCostElements(g: Graph, rootId: string, ces: seq<string>, ceData: map<string, seq<VarRow>>,
                         ghost variances: seq<VarRow>, evidences: seq<EvRow>)
    returns (r: Graph)
    requires forall c :: c in ceData ==> ceData[c] == CeRows(variances, c) && ceData[c] != []
    requires forall c :: c !in ceData ==> CeRows(variances, c) == []
    ensures r == CeFold(g, rootId, ces, variances, evidences)
  {
    r := g;
    assert ces[0..] == ces;
    for k := 0 to |ces|
      invariant CeFold(r, rootId, ces[k..], variances, evidences) == CeFold(g, rootId, ces, variances, evidences)
    {
      assert ces[k..][1..] == ces[k + 1..];
      var ce := ces[k];
      if ce !in ceData {
        assert CeRows(variances, ce) == [];
        continue;
      }
      var nodes, links, evAdded := AddCostElement(r.nodes, r.links, r.evAdded, evidences, rootId, ce, ceData[ce]);
      r := Graph(nodes, links, evAdded);
    }
  }

  /** The spread products loop in get_graph_data: one level-5 node and one root link each. */
  method AddSpreadNodes(g: Graph, rootId: string, spreads: seq<SpreadRow>) returns (r: Graph)
    ensures r == SpreadFold(g, rootId, spreads)
  {
    r := g;
    assert spreads[0..] == spreads;
    for k := 0 to |spreads|
      invariant SpreadFold(r, rootId, spreads[k..]) == SpreadFold(g, rootId, spreads)
    {
      assert spreads[k..][1..] == spreads[k + 1..];
      var sp := spreads[k];
      var spId := "SPR_" + sp.productCd;
      r := Graph(r.nodes + [Node(spId, sp.productCd, Spread, sp.varAmt, 5)],
                 r.links + [Link(rootId, spId, "파급(SPREADS_TO)")], r.evAdded);
    }
  }

  lemma {:induction false} CeRowsHas(vs: seq<VarRow>, i: nat)
    requires i < |vs|
    ensures CeRows(vs, vs[i].ce) != []
  {
    if i < |vs| - 1 {
      CeRowsHas(vs[..|vs| - 1], i);
    }
  }

  // ---------------------------------------------------------------
  // Trend pivot (get_trend_by_product_group): one entry per month in
  // range order, one value per product group, 0 where a group has no
  // row for that month.
  // ---------------------------------------------------------------

  /** One row of the group-by-month query: product group, month and SUM(cost_amt). */
  datatype TrendRow = TrendRow(grp: string, yyyymm: string, amt: Option<real>)

  /** One pivoted month: its "MM월" label and the value of every group. */
  datatype TrendEntry = TrendEntry(month: string, values: map<string, real>)

  /**
   * raw.get(ym, {}).get(grp, 0) after the loop: the `or 0` amount of the last
   * row for (ym, grp), or 0 when there is none.
   */
  function Pivoted(rows: seq<TrendRow>, ym: string, grp: string): real
  {
    if rows == [] then 0.0
    else if rows[|rows| - 1].yyyymm == ym && rows[|rows| - 1].grp == grp then OrZero(rows[|rows| - 1].amt)
    else Pivoted(rows[..|rows| - 1], ym, grp)
  }

  predicate HasCell(rows: seq<TrendRow>, ym: string, grp: string)
  {
    exists i :: 0 <= i < |rows| && rows[i].yyyymm == ym && rows[i].grp == grp
  }

  /** A (month, group) cell with no row reads 0. */
  lemma {:induction false} PivotedAbsent(rows: seq<TrendRow>, ym: string, grp: string)
    requires !HasCell(rows, ym, grp)
    ensures Pivoted(rows, ym, grp) == 0.0
  {
    if rows != [] {
      var pre := rows[..|rows| - 1];
      assert !HasCell(pre, ym, grp) by {
        forall i | 0 <= i < |pre| ensures !(pre[i].yyyymm == ym && pre[i].grp == grp) {
          assert pre[i] == rows[i];
        }
      }
      PivotedAbsent(pre, ym, grp);
    }
  }

  /** A cell with rows reads the amount of the last of them (a later row overwrites an earlier one). */
  lemma {:induction false} PivotedPresent(rows: seq<TrendRow>, ym: string, grp: string)
    requires HasCell(rows, ym, grp)
    ensures exists i :: (0 <= i < |rows| && rows[i].yyyymm == ym && rows[i].grp == grp
      && Pivoted(rows, ym, grp) == OrZero(rows[i].amt)
      && forall j :: i < j < |rows| ==> !(rows[j].yyyymm == ym && rows[j].grp == grp))
  {
    var n := |rows| - 1;
    if !(rows[n].yyyymm == ym && rows[n].grp == grp) {
      var pre := rows[..n];
      assert HasCell(pre, ym, grp) by {
        var i :| 0 <= i < |rows| && rows[i].yyyymm == ym && rows[i].grp == grp;
        assert i != n;
        assert pre[i] == rows[i];
      }
      PivotedPresent(pre, ym, grp);
      var i :| 0 <= i < |pre| && pre[i].yyyymm == ym && pre[i].grp == grp
        && Pivoted(pre, ym, grp) == OrZero(pre[i].amt)
        && forall j :: i < j < |pre| ==> !(pre[j].yyyymm == ym && pre[j].grp == grp);
      assert rows[i] == pre[i];
      assert forall j :: i < j < |rows| ==> !(rows[j].yyyymm == ym && rows[j].grp == grp) by {
        forall j | i < j < |rows| ensures !(rows[j].yyyymm == ym && rows[j].grp == grp) {
          if j < n {
            assert rows[j] == pre[j];
          }
        }
      }
    }
  }

  /** m.get(a, {}).get(b, 0) */
  function NestedGet(m: map<string, map<string, real>>, a: string, b: string): real
  {
    if a in m && b in m[a] then m[a][b] else 0.0
  }

  /** The row loop: raw.setdefault(ym, {})[grp] = amt, and every group is collected. */
  method BuildRaw(rows: seq<TrendRow>) returns (raw: map<string, map<string, real>>, grps: seq<string>)
    ensures forall ym, grp :: NestedGet(raw, ym, grp) == Pivoted(rows, ym, grp)
    ensures |grps| == |rows| && forall i :: 0 <= i < |rows| ==> grps[i] == rows[i].grp
  {
    raw, grps := map[], [];
    for i := 0 to |rows|
      invariant forall ym, grp :: NestedGet(raw, ym, grp) == Pivoted(rows[..i], ym, grp)
      invariant |grps| == i && forall k :: 0 <= k < i ==> grps[k] == rows[k].grp
    {
      var row := rows[i];
      assert rows[..i + 1][..i] == rows[..i];
      var inner := if row.yyyymm in raw then raw[row.yyyymm] else map[];
      raw := raw[row.yyyymm := inner[row.grp := OrZero(row.amt)]];
      grps := grps + [row.grp];
    }
    assert rows[..|rows|] == rows;
  }

  /** The entry of one month: its label and the value of every group. */
  function PivotEntry(rows: seq<TrendRow>, groups: seq<string>, ym: string): TrendEntry
    requires Period.IsYyyymm(ym)
  {
    TrendEntry(Period.MonthLabel(ym), map g | g in groups :: Pivoted(rows, ym, g))
  }

  /** The inner loop: entry[grp] = raw.get(ym, {}).get(grp, 0) for every group. */
  method PivotValues(raw: map<string, map<string, real>>, groups: seq<string>, ym: string, ghost rows: seq<TrendRow>)
    returns (values: map<string, real>)
    requires forall grp :: NestedGet(raw, ym, grp) == Pivoted(rows, ym, grp)
    ensures values == map g | g in groups :: Pivoted(rows, ym, g)
  {
    values := map[];
    for t := 0 to |groups|
      invariant forall g :: g in values <==> g in groups[..t]
      invariant forall g :: g in values ==> values[g] == Pivoted(rows, ym, g)
    {
      assert groups[..t + 1] == groups[..t] + [groups[t]];
      values := values[groups[t] := NestedGet(raw, ym, groups[t])];
    }
    assert groups[..|groups|] == groups;
  }

  /**
   * The pivot: the groups sorted and without duplicates, then one entry per
   * month of the range, in range order, holding every group.
   */
  method TrendPivot(allMonths: seq<string>, rows: seq<TrendRow>) returns (groups: seq<string>, trend: seq<TrendEntry>)
    requires forall k :: 0 <= k < |allMonths| ==> Period.IsYyyymm(allMonths[k])
    ensures Sorting.StrictlyIncreasing(groups)
    ensures forall i :: 0 <= i < |rows| ==> rows[i].grp in groups
    ensures forall g :: g in groups ==> exists i :: 0 <= i < |rows| && rows[i].grp == g
    ensures |trend| == |allMonths|
    ensures forall k :: 0 <= k < |trend| ==> trend[k] == PivotEntry(rows, groups, allMonths[k])
  {
    var raw, grps := BuildRaw(rows);
    groups := Sorting.SortedDistinct(grps);
    trend := [];
    for k := 0 to |allMonths|
      invariant |trend| == k
      invariant forall j :: 0 <= j < k ==> trend[j] == PivotEntry(rows, groups, allMonths[j])
    {
      var values := PivotValues(raw, groups, allMonths[k], rows);
      trend := trend + [TrendEntry(Period.MonthLabel(allMonths[k]), values)];
    }
    forall g | g in groups ensures exists i :: 0 <= i < |rows| && rows[i].grp == g {
      var i :| 0 <= i < |grps| && grps[i] == g;
    }
  }

  /**
   * Every entry holds every group: the value of a group with a row for that
   * month is the last such row's amount, and 0 otherwise.
   */
  lemma PivotComplete(rows: seq<TrendRow>, groups: seq<string>, ym: string, g: string)
    requires Period.IsYyyymm(ym) && g in groups
    ensures var e := PivotEntry(rows, groups, ym);
      g in e.values
      && (!HasCell(rows, ym, g) ==> e.values[g] == 0.0)
      && (HasCell(rows, ym, g) ==>
            exists i :: (0 <= i < |rows| && rows[i].yyyymm == ym && rows[i].grp == g
              && e.values[g] == OrZero(rows[i].amt)))
  {
    if HasCell(rows, ym, g) {
      PivotedPresent(rows, ym, g);
    } else {
      PivotedAbsent(rows, ym, g);
    }
  }

  // ---------------------------------------------------------------
  // Cost-element drilldown (get_cost_element_drilldown): six-month
  // trend per cost element, the current month's share of the total,
  // front-end/back-end sub-accounts, sorted by change.
  // ---------------------------------------------------------------

  /** One row of the per-element monthly query: code, name, month and SUM(cost_amt). */
  datatype CeTrendRow = CeTrendRow(ceCd: string, ceNm: string, yyyymm: string, amt: Option<real>)

  /** One row of the per-process query: current and previous month sums of one process. */
  datatype ProcRow = ProcRow(ceCd: string, procCd: string, procNm: string, procType: string,
                             currAmt: Option<real>, prevAmt: Option<real>)

  /** A proc_breakdown entry. */
  datatype ProcAmt = ProcAmt(procCd: string, procNm: string, procType: string, curr: real, prev: real)

  datatype SubItem = SubItem(name: string, amount: real, change: real)
  datatype SubAccount = SubAccount(name: string, amount: real, change: real, items: seq<SubItem>)
  datatype DrillItem = DrillItem(ceCd: string, category: string, amount: real, change: real, percent: real,
                                 trend: seq<real>, subAccounts: seq<SubAccount>)

  /** trend_map.get(ce, {}).get(ym, 0): the `or 0` amount of the last row for (ce, ym), or 0. */
  function CeAmount(rows: seq<CeTrendRow>, ce: string, ym: string): real
  {
    if rows == [] then 0.0
    else if rows[|rows| - 1].ceCd == ce && rows[|rows| - 1].yyyymm == ym then OrZero(rows[|rows| - 1].amt)
    else CeAmount(rows[..|rows| - 1], ce, ym)
  }

  /** Some row carries cost element `ce` (so ce is a key of trend_map). */
  predicate HasCe(rows: seq<CeTrendRow>, ce: string)
  {
    rows != [] && (rows[|rows| - 1].ceCd == ce || HasCe(rows[..|rows| - 1], ce))
  }

  lemma {:induction false} HasCeIff(rows: seq<CeTrendRow>, ce: string)
    ensures HasCe(rows, ce) <==> exists i :: 0 <= i < |rows| && rows[i].ceCd == ce
  {
    if rows != [] {
      var pre := rows[..|rows| - 1];
      HasCeIff(pre, ce);
      if exists i :: 0 <= i < |rows| && rows[i].ceCd == ce {
        var i :| 0 <= i < |rows| && rows[i].ceCd == ce;
        if i < |rows| - 1 {
          assert pre[i] == rows[i];
        }
      }
      if HasCe(pre, ce) {
        var i :| 0 <= i < |pre| && pre[i].ceCd == ce;
        assert rows[i] == pre[i];
      }
    }
  }

  /** ce_names.get(ce, ce): the name on the last row of ce, or the code when there is none. */
  function CeName(rows: seq<CeTrendRow>, ce: string): (r: string)
    ensures !HasCe(rows, ce) ==> r == ce
  {
    if rows == [] then ce
    else if rows[|rows| - 1].ceCd == ce then rows[|rows| - 1].ceNm
    else CeName(rows[..|rows| - 1], ce)
  }

  /** The trend loop: trend_map and ce_names filled row by row, and trend_map's keys in insertion order. */
  method BuildTrendMap(rows: seq<CeTrendRow>)
    returns (trendMap: map<string, map<string, real>>, ceNames: map<string, string>, seen: seq<string>)
    ensures forall ce, ym :: NestedGet(trendMap, ce, ym) == CeAmount(rows, ce, ym)
    ensures forall ce :: ce in trendMap <==> HasCe(rows, ce)
    ensures forall ce :: ce in ceNames <==> HasCe(rows, ce)
    ensures forall ce :: ce in ceNames ==> ceNames[ce] == CeName(rows, ce)
    ensures Distinct(seen) && forall ce :: ce in seen <==> ce in trendMap
  {
    trendMap, ceNames, seen := map[], map[], [];
    for i := 0 to |rows|
      invariant forall ce, ym :: NestedGet(trendMap, ce, ym) == CeAmount(rows[..i], ce, ym)
      invariant forall ce :: ce in trendMap <==> HasCe(rows[..i], ce)
      invariant forall ce :: ce in ceNames <==> HasCe(rows[..i], ce)
      invariant forall ce :: ce in ceNames ==> ceNames[ce] == CeName(rows[..i], ce)
      invariant Distinct(seen) && forall ce :: ce in seen <==> ce in trendMap
    {
      var row := rows[i];
      assert rows[..i + 1][..i] == rows[..i];
      if row.ceCd !in trendMap {
        forall a, b | 0 <= a < b < |seen| + 1 ensures (seen + [row.ceCd])[a] != (seen + [row.ceCd])[b] {
          if b == |seen| {
            assert (seen + [row.ceCd])[a] == seen[a];
          }
        }
        seen := seen + [row.ceCd];
      }
      var inner := if row.ceCd in trendMap then trendMap[row.ceCd] else map[];
      trendMap := trendMap[row.ceCd := inner[row.yyyymm := OrZero(row.amt)]];
      ceNames := ceNames[row.ceCd := row.ceNm];
    }
    assert rows[..|rows|] == rows;
  }

  /** The process row as appended to proc_breakdown (`or 0` on both sums). */
  function AmtOf(p: ProcRow): ProcAmt
  {
    ProcAmt(p.procCd, p.procNm, p.procType, OrZero(p.currAmt), OrZero(p.prevAmt))
  }

  /** proc_breakdown.get(ce, []) after the loop: the process rows of ce, in query order. */
  function ProcsOf(rows: seq<ProcRow>, ce: string): seq<ProcAmt>
  {
    if rows == [] then []
    else if rows[|rows| - 1].ceCd == ce then ProcsOf(rows[..|rows| - 1], ce) + [AmtOf(rows[|rows| - 1])]
    else ProcsOf(rows[..|rows| - 1], ce)
  }

  /** Every process row of ce appears in its list, and only those. */
  lemma {:induction false} ProcsOfMembers(rows: seq<ProcRow>, ce: string)
    ensures |ProcsOf(rows, ce)| <= |rows|
    ensures forall i :: 0 <= i < |rows| && rows[i].ceCd == ce ==> AmtOf(rows[i]) in ProcsOf(rows, ce)
    ensures forall p :: p in ProcsOf(rows, ce) ==> exists i :: 0 <= i < |rows| && rows[i].ceCd == ce && AmtOf(rows[i]) == p
  {
    if rows != [] {
      var n := |rows| - 1;
      var pre := rows[..n];
      ProcsOfMembers(pre, ce);
      forall i | 0 <= i < |rows| && rows[i].ceCd == ce ensures AmtOf(rows[i]) in ProcsOf(rows, ce) {
        if i < n {
          assert rows[i] == pre[i];
        }
      }
      forall p | p in ProcsOf(rows, ce) ensures exists i :: 0 <= i < |rows| && rows[i].ceCd == ce && AmtOf(rows[i]) == p {
        if p in ProcsOf(pre, ce) {
          var i :| 0 <= i < |pre| && pre[i].ceCd == ce && AmtOf(pre[i]) == p;
          assert rows[i] == pre[i];
        } else {
          assert rows[n].ceCd == ce && AmtOf(rows[n]) == p;
        }
      }
    }
  }

  /** proc_breakdown.get(ce, []) */
  function ProcsGet(pb: map<string, seq<ProcAmt>>, ce: string): seq<ProcAmt>
  {
    if ce in pb then pb[ce] else []
  }

  /** The process loop: proc_breakdown.setdefault(ce_cd, []).append(...). */
  method BuildProcBreakdown(rows: seq<ProcRow>) returns (pb: map<string, seq<ProcAmt>>)
    ensures forall ce :: ProcsGet(pb, ce) == ProcsOf(rows, ce)
  {
    pb := map[];
    for i := 0 to |rows|
      invariant forall ce :: ProcsGet(pb, ce) == ProcsOf(rows[..i], ce)
    {
      assert rows[..i + 1][..i] == rows[..i];
      pb := pb[rows[i].ceCd := ProcsGet(pb, rows[i].ceCd) + [AmtOf(rows[i])]];
    }
    assert rows[..|rows|] == rows;
  }

  /** [p for p in procs if p["proc_type"] == t] */
  function OfType(procs: seq<ProcAmt>, t: string): (r: seq<ProcAmt>)
    ensures |r| <= |procs|
    ensures forall p :: p in r <==> p in procs && p.procType == t
  {
    if procs == [] then []
    else if procs[0].procType == t then [procs[0]] + OfType(procs[1..], t)
    else OfType(procs[1..], t)
  }

  function CurrOf(p: ProcAmt): real { p.curr }
  function PrevOf(p: ProcAmt): real { p.prev }
  function SubItemOf(p: ProcAmt): SubItem { SubItem(p.procNm, p.curr, p.curr - p.prev) }
  function SubAmount(it: SubItem): real { it.amount }
  function SubChange(it: SubItem): real { it.change }

  function SubItems(procs: seq<ProcAmt>): seq<SubItem>
  {
    seq(|procs|, i requires 0 <= i < |procs| => SubItemOf(procs[i]))
  }

  /** One sub-account: the sums of the current and previous amounts, and one item per process. */
  function SubAccountOf(title: string, procs: seq<ProcAmt>): SubAccount
  {
    var curr := SumBy(procs, CurrOf);
    var prev := SumBy(procs, PrevOf);
    SubAccount(title, curr, curr - prev, SubItems(procs))
  }

  /** A sub-account's amount and change are the sums of its items' amounts and changes. */
  lemma {:induction false} SubAccountAddsUp(title: string, procs: seq<ProcAmt>)
    ensures var a := SubAccountOf(title, procs);
      SumBy(a.items, SubAmount) == a.amount && SumBy(a.items, SubChange) == a.change
  {
    if procs != [] {
      SubAccountAddsUp(title, procs[1..]);
      assert SubItems(procs)[1..] == SubItems(procs[1..]);
    }
  }

  /** The front-end account ("전공정 "), then the back-end one ("후공정 "), each only when it has processes. */
  function SubAccounts(ceNm: string, procs: seq<ProcAmt>): (r: seq<SubAccount>)
    ensures |r| == (if OfType(procs, "FE") != [] then 1 else 0) + (if OfType(procs, "BE") != [] then 1 else 0)
    ensures OfType(procs, "FE") != [] ==> r[0] == SubAccountOf("전공정 " + ceNm, OfType(procs, "FE"))
    ensures OfType(procs, "BE") != [] ==> r[|r| - 1] == SubAccountOf("후공정 " + ceNm, OfType(procs, "BE"))
  {
    var fe := OfType(procs, "FE");
    var be := OfType(procs, "BE");
    var feAcct := SubAccountOf("전공정 " + ceNm, fe);
    var beAcct := SubAccountOf("후공정 " + ceNm, be);
    if fe != [] && be != [] then [feAcct, beAcct]
    else if fe != [] then [feAcct]
    else if be != [] then [beAcct]
    else []
  }

  /** [trend_map[ce].get(ym, 0) for ym in all_months] */
  function Trend(rows: seq<CeTrendRow>, ce: string, months: seq<string>): seq<real>
  {
    seq(|months|, k requires 0 <= k < |months| => CeAmount(rows, ce, months[k]))
  }

  /**
   * One drilldown item: the last trend value as the amount, the change from
   * the month before, the share of the current total, and the sub-accounts.
   */
  function DrillItemOf(rows: seq<CeTrendRow>, procs: seq<ProcAmt>, months: seq<string>, total: real, ce: string)
    : (r: DrillItem)
    ensures |r.trend| == |months|
    ensures r.amount == (if |months| >= 1 then CeAmount(rows, ce, months[|months| - 1]) else 0.0)
    ensures |months| >= 2 ==>
      r.change == CeAmount(rows, ce, months[|months| - 1]) - CeAmount(rows, ce, months[|months| - 2])
    ensures total == 0.0 ==> r.percent == 0.0
    ensures total != 0.0 ==> r.percent * total == r.amount * 100.0
  {
    var t := Trend(rows, ce, months);
    var curr := if |t| >= 1 then t[|t| - 1] else 0.0;
    var prev := if |t| >= 2 then t[|t| - 2] else 0.0;
    var name := CeName(rows, ce);
    DrillItem(ce, name, curr, curr - prev, PercentOf(curr, total), t, SubAccounts(name, procs))
  }

  /** The unsorted items, one per cost element in key order. */
  function DrillItems(keys: seq<string>, rows: seq<CeTrendRow>, procRows: seq<ProcRow>, months: seq<string>,
                      total: real): seq<DrillItem>
  {
    seq(|keys|, k requires 0 <= k < |keys| => DrillItemOf(rows, ProcsOf(procRows, keys[k]), months, total, keys[k]))
  }

  function AmountAt(rows: seq<CeTrendRow>, ym: string): string -> real
  {
    ce => CeAmount(rows, ce, ym)
  }

  /** Σ over cost elements of trend_map.get(ce, {}).get(ym, 0). */
  function CurrTotal(keys: seq<string>, rows: seq<CeTrendRow>, ym: string): real
  {
    SumBy(keys, AmountAt(rows, ym))
  }

  function ItemPercent(it: DrillItem): real { it.percent }
  function ChangeOf(it: DrillItem): real { it.change }

  /** The share of one cost element in the total, as the item for it reports. */
  function ShareAt(rows: seq<CeTrendRow>, ym: string, total: real): string -> real
  {
    ce => PercentOf(CeAmount(rows, ce, ym), total)
  }

  lemma {:induction false} ItemPercents(keys: seq<string>, rows: seq<CeTrendRow>, procRows: seq<ProcRow>,
                                        months: seq<string>, total: real)
    requires |months| >= 1
    ensures SumBy(DrillItems(keys, rows, procRows, months, total), ItemPercent)
         == SumBy(keys, ShareAt(rows, months[|months| - 1], total))
  {
    if keys != [] {
      ItemPercents(keys[1..], rows, procRows, months, total);
      var items := DrillItems(keys, rows, procRows, months, total);
      assert items[1..] == DrillItems(keys[1..], rows, procRows, months, total);
      assert ItemPercent(items[0]) == ShareAt(rows, months[|months| - 1], total)(keys[0]);
    }
  }

  /** Σ share · total = 100 · Σ amount. */
  lemma {:induction false} SharesScale(keys: seq<string>, rows: seq<CeTrendRow>, ym: string, total: real)
    requires total != 0.0
    ensures SumBy(keys, ShareAt(rows, ym, total)) * total == CurrTotal(keys, rows, ym) * 100.0
  {
    if keys != [] {
      SharesScale(keys[1..], rows, ym, total);
      var x := ShareAt(rows, ym, total)(keys[0]);
      var rest := SumBy(keys[1..], ShareAt(rows, ym, total));
      assert x * total == CeAmount(rows, keys[0], ym) * 100.0;
      assert (x + rest) * total == x * total + rest * total;
    }
  }

  /** The total summed over trend_map's insertion order equals the total over the sorted keys. */
  lemma TotalOrderFree(seen: seq<string>, keys: seq<string>, rows: seq<CeTrendRow>, ym: string)
    requires Distinct(seen) && Sorting.StrictlyIncreasing(keys)
    requires forall ce :: ce in seen <==> ce in keys
    ensures CurrTotal(seen, rows, ym) == CurrTotal(keys, rows, ym)
  {
    forall i, j | 0 <= i < j < |keys| ensures keys[i] != keys[j] {
      if keys[i] == keys[j] {
        Sorting.LexIrreflexive(keys[i]);
      }
    }
    DistinctSameElements(seen, keys);
    SumByPermutation(seen, keys, AmountAt(rows, ym));
  }

  /** total_curr = sum(trend_map.get(ce, {}).get(yyyymm, 0) for ce in trend_map), in key order. */
  method CurrentTotal(seen: seq<string>, trendMap: map<string, map<string, real>>, yyyymm: string,
                      ghost rows: seq<CeTrendRow>)
    returns (total: real)
    requires forall ce :: NestedGet(trendMap, ce, yyyymm) == CeAmount(rows, ce, yyyymm)
    ensures total == CurrTotal(seen, rows, yyyymm)
  {
    total := 0.0;
    assert seen[0..] == seen;
    for k := 0 to |seen|
      invariant total + SumBy(seen[k..], AmountAt(rows, yyyymm)) == SumBy(seen, AmountAt(rows, yyyymm))
    {
      assert seen[k..][1..] == seen[k + 1..];
      total := total + NestedGet(trendMap, seen[k], yyyymm);
    }
  }

  /** The item loop over sorted(trend_map.keys()). */
  method BuildDrillItems(keys: seq<string>, trendMap: map<string, map<string, real>>, ceNames: map<string, string>,
                         pb: map<string, seq<ProcAmt>>, months: seq<string>, total: real,
                         ghost rows: seq<CeTrendRow>, ghost procRows: seq<ProcRow>)
    returns (items: seq<DrillItem>)
    requires forall ce, ym :: NestedGet(trendMap, ce, ym) == CeAmount(rows, ce, ym)
    requires forall ce :: ce in ceNames <==> HasCe(rows, ce)
    requires forall ce :: ce in ceNames ==> ceNames[ce] == CeName(rows, ce)
    requires forall ce :: ProcsGet(pb, ce) == ProcsOf(procRows, ce)
    ensures items == DrillItems(keys, rows, procRows, months, total)
  {
    items := [];
    for k := 0 to |keys|
      invariant |items| == k
      invariant forall j :: 0 <= j < k ==> items[j] == DrillItemOf(rows, ProcsOf(procRows, keys[j]), months, total, keys[j])
    {
      var item := DrillItemFor(keys[k], trendMap, ceNames, pb, months, total, rows, procRows);
      items := items + [item];
    }
  }

  /** The body of the item loop for one cost element. */
  method DrillItemFor(ce: string, trendMap: map<string, map<string, real>>, ceNames: map<string, string>,
                      pb: map<string, seq<ProcAmt>>, months: seq<string>, total: real,
                      ghost rows: seq<CeTrendRow>, ghost procRows: seq<ProcRow>)
    returns (item: DrillItem)
    requires forall ym :: NestedGet(trendMap, ce, ym) == CeAmount(rows, ce, ym)
    requires ce in ceNames <==> HasCe(rows, ce)
    requires ce in ceNames ==> ceNames[ce] == CeName(rows, ce)
    requires ProcsGet(pb, ce) == ProcsOf(procRows, ce)
    ensures item == DrillItemOf(rows, ProcsOf(procRows, ce), months, total, ce)
  {
    var name := if ce in ceNames then ceNames[ce] else ce;
    var trend := seq(|months|, j requires 0 <= j < |months| => NestedGet(trendMap, ce, months[j]));
    assert trend == Trend(rows, ce, months);
    var curr := if |trend| >= 1 then trend[|trend| - 1] else 0.0;
    var prev := if |trend| >= 2 then trend[|trend| - 2] else 0.0;
    item := DrillItem(ce, name, curr, curr - prev, PercentOf(curr, total), trend, SubAccounts(name, ProcsGet(pb, ce)));
  }

  /**
   * For a canonical month (six characters, no leading zero, month 01..12) the
   * last month of the range is the month itself, so the shares of the items
   * add up to 100 whenever the current total is non-zero.
   */
  lemma SharesSumTo100(yyyymm: string, months: seq<string>, keys: seq<string>, rows: seq<CeTrendRow>,
                       procRows: seq<ProcRow>, items: seq<DrillItem>)
    requires Period.IsYyyymm(yyyymm) && |yyyymm| == 6 && yyyymm[0] != '0' && 1 <= Period.MonthOf(yyyymm) <= 12
    requires |months| == 6
    requires forall j :: 0 <= j < |months| ==>
      months[j] == Period.FormatShift(Period.YearOf(yyyymm), Period.MonthOf(yyyymm), |months| - 1 - j)
    requires CurrTotal(keys, rows, yyyymm) != 0.0
    requires multiset(items) == multiset(DrillItems(keys, rows, procRows, months, CurrTotal(keys, rows, yyyymm)))
    ensures SumBy(items, ItemPercent) == 100.0
  {
    var total := CurrTotal(keys, rows, yyyymm);
    Period.RangeEndsAtInput(yyyymm);
    assert yyyymm[..6] == yyyymm;
    SharesOfItems(keys, rows, procRows, months, total);
    SumByPermutation(items, DrillItems(keys, rows, procRows, months, total), ItemPercent);
  }

  /** With the total taken in the last month of the range, the items' shares add up to 100. */
  lemma SharesOfItems(keys: seq<string>, rows: seq<CeTrendRow>, procRows: seq<ProcRow>, months: seq<string>, total: real)
    requires |months| >= 1 && total != 0.0 && CurrTotal(keys, rows, months[|months| - 1]) == total
    ensures SumBy(DrillItems(keys, rows, procRows, months, total), ItemPercent) == 100.0
  {
    ItemPercents(keys, rows, procRows, months, total);
    SharesScale(keys, rows, months[|months| - 1], total);
    CancelTotal(SumBy(keys, ShareAt(rows, months[|months| - 1], total)), total);
  }

  lemma CancelTotal(s: real, t: real)
    requires t != 0.0 && s * t == t * 100.0
    ensures s == 100.0
  {
    assert (s - 100.0) * t == 0.0;
  }

  /**
   * get_cost_element_drilldown: the six months ending at yyyymm, one item per
   * cost element (keys sorted), then a stable sort by change, descending.
   * When the input is a canonical month and the current total is non-zero,
   * the shares add up to 100; when the total is zero every share is 0.
   */
  method CostElementDrilldown(yyyymm: string, trendRows: seq<CeTrendRow>, procRows: seq<ProcRow>)
    returns (items: seq<DrillItem>, ghost months: seq<string>, ghost keys: seq<string>, ghost perm: seq<nat>)
    requires Period.IsYyyymm(yyyymm)
    ensures |months| == 6
    ensures Period.MonthOf(yyyymm) <= 12 ==>
      forall j :: 0 <= j < |months| ==>
        months[j] == Period.FormatShift(Period.YearOf(yyyymm), Period.MonthOf(yyyymm), |months| - 1 - j)
    ensures Sorting.StrictlyIncreasing(keys) && forall ce :: ce in keys <==> HasCe(trendRows, ce)
    ensures var unsorted := DrillItems(keys, trendRows, procRows, months, CurrTotal(keys, trendRows, yyyymm));
      Sorting.IsPermutation(perm, |unsorted|) && Sorting.StableDesc(unsorted, ChangeOf, perm)
      && |items| == |unsorted| && forall i :: 0 <= i < |items| ==> items[i] == unsorted[perm[i]]
    ensures forall i, j :: 0 <= i < j < |items| ==> items[i].change >= items[j].change
    ensures CurrTotal(keys, trendRows, yyyymm) == 0.0 ==> forall i :: 0 <= i < |items| ==> items[i].percent == 0.0
    ensures (|yyyymm| == 6 && yyyymm[0] != '0' && 1 <= Period.MonthOf(yyyymm) <= 12
             && CurrTotal(keys, trendRows, yyyymm) != 0.0) ==> SumBy(items, ItemPercent) == 100.0
  {
    var allMonths := Period.MonthsRange(yyyymm, 6);
    months := allMonths;
    var trendMap, ceNames, seen := BuildTrendMap(trendRows);
    var pb := BuildProcBreakdown(procRows);
    var total := CurrentTotal(seen, trendMap, yyyymm, trendRows);
    var sortedKeys := Sorting.SortedDistinct(seen);
    keys := sortedKeys;
    TotalOrderFree(seen, keys, trendRows, yyyymm);
    var unsorted := BuildDrillItems(sortedKeys, trendMap, ceNames, pb, allMonths, total, trendRows, procRows);
    assert unsorted == DrillItems(keys, trendRows, procRows, months, CurrTotal(keys, trendRows, yyyymm));
    items, perm := Sorting.SortDesc(unsorted, ChangeOf);
    if total == 0.0 {
      forall i | 0 <= i < |items| ensures items[i].percent == 0.0 {
        assert items[i] == unsorted[perm[i]];
      }
    }
    if |yyyymm| == 6 && yyyymm[0] != '0' && 1 <= Period.MonthOf(yyyymm) <= 12 && total != 0.0 {
      SharesSumTo100(yyyymm, months, keys, trendRows, procRows, items);
    }
  }
}
