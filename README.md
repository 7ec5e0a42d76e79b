# Cost-variance analysis dashboard — a verified Dafny model of its core logic

The system explains month-over-month changes in semiconductor manufacturing
cost. A variance engine splits each cost change into rate, quantity, price and
usage parts. A rule engine links the variances into a causal graph. An
evidence builder and a language-model engine interpret them. A dashboard, a
graph explorer, a report page and a chat page present the results.

This project models the deterministic logic of that system in Dafny 4.11, one
module per source file:

- `Period` — "YYYYMM" month arithmetic: the previous month, the N-month range and its `while` loop.
- `VarianceCalc` — the rate/quantity, rate-cost/rate-base and price/usage decompositions, and the order of `calculate_all`.
- `SampleData` — the generator's allocation rates, amounts, quantity normalisation, bill-of-materials series and variance records.
- `DashboardApi` — guarded change rates, the causal graph's node/link assembly, the trend pivot and the cost-element drilldown.
- `ReportApi` — the executive summary: group differences, the stable sort by size and the top-N cut.
- `RuleEngine` — the rule order and the look-back window loop.
- `Evidence` — the time-series statistics, the package's error path and the prompt text.
- `LlmEngine` — provider selection, code-fence stripping and the fallback interpretations.
- `CostNetworkTree` and `CostNetworkView` — the radial network's leaf counting, search, colour and size rules and angular layout, plus its view state (cascading collapse, zoom, pan, drag) as a class.
- `GraphExplorer` — the breadth-first visibility filter as a method proved against a reachability definition, the link filter, the click/expand/collapse state as a class, and the link clipping.
- `DashboardPage`, `ReportPage` and `ChatPage` — the front-end classifiers, shares, sparkline scaling, label map, grouping reduce, canned-answer search and send guard. The chat page state is a class.
- `Common` and `Sorting` — shared sums, whitespace trimming, the guarded percentage and the stable descending sort.

Database and model calls are not modelled. Their results arrive as input
sequences of records, and the language model's reply and the JSON parser
arrive as parameters. Amounts are exact reals, so every identity holds before
rounding.

## Model

| member | source | states |
|---|---|---|
| `Period.Pad2` | backend/app/api/dashboard.py:600 | `{m:02d}`: a month in 0..99 becomes exactly two digits that parse back to it |
| `Period.Shift` | backend/app/services/rule_engine.py:232-236 | reference definition of "k months earlier": the month lies in 1..12 and the month index drops by exactly k |
| `Period.FormatRoundTrip` | backend/app/api/dashboard.py:594-600 | a four-digit year and a month in 1..12 format to a six-character YYYYMM whose year and month parse back unchanged |
| `Period.FormatParsed` | backend/app/api/dashboard.py:594-600 | formatting the parsed year and month of a canonical YYYYMM reproduces its first six characters |
| `Period.PrevMonthIsShift` | backend/app/api/dashboard.py:594-600 | the previous month (January wrapping to December of year-1, otherwise month-1 zero-padded) is the calendar shift by one month |
| `Period.PrevMonthRoundTrip` | backend/app/api/dashboard.py:594-600 | the previous month of a four-digit YYYYMM is again a six-character YYYYMM whose month index is exactly one lower |
| `Period.MonthsBack` | backend/app/api/dashboard.py:607-611 | the `nm = m - i; while nm <= 0: nm += 12; ny -= 1` loop ends with a positive month, at most 12 for an in-range input, whose month index is exactly i lower; with `m - i >= 1` the year is untouched |
| `Period.MonthsRange` | backend/app/api/dashboard.py:603-614 | `_get_months_range` returns `count` entries (none for count <= 0), entry j being the month `count-1-j` months before the input, so oldest first |
| `Period.RangeConsecutive` | backend/app/api/dashboard.py:603-614 | consecutive range entries are exactly one month apart and every month is in 1..12 |
| `Period.RangeEndsAtInput` | backend/app/api/dashboard.py:603-614 | the last range entry is the input month itself |
| `Period.PrevMonthIsRangeStart` | backend/app/api/dashboard.py:594-614 | `_get_prev_month` agrees with the first entry of the two-month range |
| `Period.MonthLabel` | backend/app/api/dashboard.py:656 | the trend label is the two-digit month followed by '월' |
| `Common.PercentOf` | backend/app/api/dashboard.py:46-49 | the guarded rate: `rate * base == diff * 100` for a non-zero base, 0 for a zero base, and same sign as diff for a positive base |
| `Common.Trim` | backend/app/services/llm_engine.py:418 | `strip()`/`trim()`: the result is a slice of the input with no whitespace at either end, empty exactly when the input is all whitespace |
| `Common.IndexOf` | backend/app/services/llm_engine.py:420 | `find('\n')`: None exactly when the character is absent, otherwise the index of its first occurrence |
| `Sorting.SortDesc` | backend/app/api/report.py:67 | `sorted(..., reverse=True)` / `sort((a,b) => key(b)-key(a))`: a stable permutation of the input with keys non-increasing |
| `Sorting.SortedDistinct` | backend/app/api/dashboard.py:646 | `sorted(groups)` of a set: strictly increasing, holding exactly the input strings |
| `Sorting.LexTotal` | backend/app/api/dashboard.py:646 | Python's string order is total on distinct strings |
| `Sorting.LexTransitive` | backend/app/api/dashboard.py:646 | Python's string order is transitive |
| `Period.ParseNatToString` | backend/app/api/dashboard.py:596-600 | `int(str(n)) == n`: printing a year and parsing it back gives the year |
| `Period.NatToStringParse` | backend/app/api/dashboard.py:596-600 | `str(int(s)) == s` for a digit string without a leading zero |
| `Period.ShiftUnique` | backend/app/services/rule_engine.py:232-236 | the month k months earlier is unique: any (year, month in 1..12) with the right month index is it |
| `DashboardApi.MakeChange` | backend/app/api/dashboard.py:46-49 | current and previous totals default to 0, `prev + diff == curr`, the rate is `diff/prev*100` (0 when prev is 0) and is positive exactly when curr > prev |
| `DashboardApi.ChangeItems` | backend/app/api/dashboard.py:87-97 | one item per query row, in row order, carrying the row's key and its guarded change |
| `DashboardApi.ChangeItemsOrdered` | backend/app/api/dashboard.py:82-83 | rows ordered by difference by the query give items ordered by difference |
| `DashboardApi.MainSumByType` | backend/app/api/dashboard.py:440-444 | the root total is the sum of the RATE_VAR, QTY_VAR, PRICE_VAR and USAGE_VAR totals |
| `DashboardApi.GroupByCe` | backend/app/api/dashboard.py:402-407 | `ce_data` maps each cost element present to its rows in query order, and its keys are listed once each |
| `DashboardApi.SumOverCesIsMainSum` | backend/app/api/dashboard.py:440-444 | summing the main types element by element over distinct codes that cover every row gives the overall main total |
| `DashboardApi.EventsOnceDistinct` | backend/app/api/dashboard.py:420-435 | no two event nodes share an id |
| `DashboardApi.EvidenceLinks` | backend/app/api/dashboard.py:416-436 | each evidence parent gets one "근거" link per matching evidence row, whether or not the event node already exists, and no other link |
| `DashboardApi.AddEvidenceNodes` | backend/app/api/dashboard.py:416-436 | `add_evidence_nodes` leaves nodes, links and `ev_added` as the evidence fold over the rows prescribes |
| `DashboardApi.AddCostElement` | backend/app/api/dashboard.py:454-547 | one cost element appends its level-1 node and root link, then PV/UV for CE_MAT or RV→{RC, RB} plus QV otherwise, as the cost-element step prescribes |
| `DashboardApi.TotalVar` | backend/app/api/dashboard.py:440-444 | `total_var` is the main-type sum over the groups in dict order |
| `DashboardApi.AddCostElements` | backend/app/api/dashboard.py:453-456 | the `ce_order` loop applies the cost-element step to each code in order and skips codes absent from `ce_data` |
| `DashboardApi.AddSpreadNodes` | backend/app/api/dashboard.py:550-558 | each spread product adds one level-5 node and one link from the root, in order |
| `DashboardApi.GetGraphData` | backend/app/api/dashboard.py:402-560 | `get_graph_data`, given its three query results, returns exactly the nodes and links of the graph specification |
| `DashboardApi.BuildGraphShape` | backend/app/api/dashboard.py:446-558 | for any code list: the root is the first node, at level 0, valued at the main total; every link joins nodes appended before it; each event node appears once; the level-1 nodes are exactly the present elements in list order |
| `DashboardApi.GraphDataShape` | backend/app/api/dashboard.py:446-558 | the same shape for `get_graph_data` itself, with the level-1 nodes following `ce_order` and absent elements skipped |
| `DashboardApi.RootIsSumOfElements` | backend/app/api/dashboard.py:440-470 | when the codes are distinct and cover every variance, the root value is the sum of the level-1 node values |
| `DashboardApi.PivotedAbsent` | backend/app/api/dashboard.py:657-658 | a (month, group) cell without a row reads 0 |
| `DashboardApi.PivotedPresent` | backend/app/api/dashboard.py:646-658 | a cell with rows reads the amount of the last such row |
| `DashboardApi.BuildRaw` | backend/app/api/dashboard.py:646-651 | `raw.setdefault(ym, {})[grp] = amt` yields the pivoted value of every cell, and every row's group is collected |
| `DashboardApi.PivotValues` | backend/app/api/dashboard.py:657-658 | an entry holds exactly the sorted groups, each with its pivoted value for the month |
| `DashboardApi.TrendPivot` | backend/app/api/dashboard.py:646-661 | groups are sorted, duplicate-free and exactly those of the rows; one entry per month of the range, in range order |
| `DashboardApi.PivotComplete` | backend/app/api/dashboard.py:653-661 | every entry holds every group: 0 when the month has no row for it, the last row's amount otherwise |
| `DashboardApi.CeName` | backend/app/api/dashboard.py:725 | `ce_names.get(ce, ce)` falls back to the code when no row names it |
| `DashboardApi.BuildTrendMap` | backend/app/api/dashboard.py:688-693 | `trend_map` and `ce_names` hold exactly the cost elements of the rows, with the last amount per month and the last name; the insertion order lists each once |
| `DashboardApi.ProcsOfMembers` | backend/app/api/dashboard.py:710-715 | each cost element's process list holds exactly its process rows |
| `DashboardApi.BuildProcBreakdown` | backend/app/api/dashboard.py:710-715 | `proc_breakdown.setdefault(ce, []).append(...)` gives every element its process rows in order |
| `DashboardApi.OfType` | backend/app/api/dashboard.py:733-734 | the FE/BE filters keep exactly the processes of that type |
| `DashboardApi.SubAccountAddsUp` | backend/app/api/dashboard.py:737-764 | a sub-account's amount and change are the sums of its items' amounts and changes |
| `DashboardApi.SubAccounts` | backend/app/api/dashboard.py:732-764 | the front-end account comes first and the back-end account last, each present exactly when it has processes |
| `DashboardApi.DrillItemOf` | backend/app/api/dashboard.py:724-774 | the amount is the last trend value, the change is the last minus the second-to-last, and the share is 0 for a zero total, otherwise `amount*100/total` |
| `DashboardApi.ItemPercents` | backend/app/api/dashboard.py:730 | the items' shares sum to the shares of the keys in the last month |
| `DashboardApi.SharesScale` | backend/app/api/dashboard.py:730 | Σ share · total = 100 · Σ amount |
| `DashboardApi.TotalOrderFree` | backend/app/api/dashboard.py:719-721 | the total over `trend_map`'s insertion order equals the total over the sorted keys |
| `DashboardApi.CurrentTotal` | backend/app/api/dashboard.py:719-721 | `total_curr` is the sum of the current month's amounts over the cost elements |
| `DashboardApi.DrillItemFor` | backend/app/api/dashboard.py:724-774 | the body of the item loop builds the item its specification defines |
| `DashboardApi.BuildDrillItems` | backend/app/api/dashboard.py:723-774 | one item per sorted key, in key order |
| `DashboardApi.SharesOfItems` | backend/app/api/dashboard.py:730 | with the total taken in the last month of the range, the shares sum to 100 |
| `DashboardApi.SharesSumTo100` | backend/app/api/dashboard.py:670-776 | for a canonical month with a non-zero total, the shares of the sorted items sum to 100 |
| `DashboardApi.CostElementDrilldown` | backend/app/api/dashboard.py:665-777 | six months ending at the input; one item per cost element; a stable sort by change, descending; shares 0 when the total is 0 and summing to 100 otherwise |
| `VarianceCalc.MakeVariance` | backend/app/services/variance_calc.py:373-393 | `_make_variance`: `var_rate * prev_amt == var_amt` for a non-zero previous amount, 0 otherwise; every other field copied through |
| `VarianceCalc.CostEffect` | backend/app/services/variance_calc.py:150 | the total-cost effect is `(C1-C0)·Q1/B0`, and 0 when B0 is 0 |
| `VarianceCalc.RateQtySplit` | backend/app/services/variance_calc.py:143-146 | rate effect plus quantity effect is `(R1·Q1 − R0·Q0)/10000` |
| `VarianceCalc.FirstAlloc` | backend/app/services/variance_calc.py:108-115 | `prev_match.iloc[0]`: a previous-month row of the same product, process and cost element, None exactly when there is none |
| `VarianceCalc.FirstRate` | backend/app/services/variance_calc.py:121-128 | the rate row of the same process and cost element, None exactly when there is none |
| `VarianceCalc.FeRow` | backend/app/services/variance_calc.py:103-175 | a current row yields four records exactly when it has a previous match and both rates, and none otherwise |
| `VarianceCalc.FeRowDecomposition` | backend/app/services/variance_calc.py:143-175 | the four records are _RV, _QV, _RC, _RB in that order with their types; RV + QV is the whole change; RC + RB is RV; RC is 0 when B0 is 0; all carry the matched amounts |
| `VarianceCalc.FeRowRecords` | backend/app/services/variance_calc.py:103-175 | the loop body appends exactly the row's records |
| `VarianceCalc.CalcFeAllocation` | backend/app/services/variance_calc.py:54-177 | `_calc_fe_allocation_variance` returns the concatenated records of the current rows, in order, or nothing when a query is empty |
| `VarianceCalc.FeRowsNoRates` | backend/app/services/variance_calc.py:91-92 | with no rate rows no record is produced, so the early return changes nothing |
| `VarianceCalc.ConvRow` | backend/app/services/variance_calc.py:292-336 | a conversion row yields two records exactly when it has a previous match and both rates |
| `VarianceCalc.ConvRowDecomposition` | backend/app/services/variance_calc.py:321-336 | the two records are _RV and _QV with their types, and they add up to the whole change |
| `VarianceCalc.ConvRowRecords` | backend/app/services/variance_calc.py:292-336 | the loop body appends exactly the row's records |
| `VarianceCalc.CalcBeConversion` | backend/app/services/variance_calc.py:250-338 | `_calc_be_conversion_variance` returns the concatenated RV/QV records of the current rows, in order |
| `VarianceCalc.UniqueInOrder` | backend/app/services/variance_calc.py:206 | `unique()` keeps each product once and loses none |
| `VarianceCalc.PriceUsageSplit` | backend/app/services/variance_calc.py:217-229 | Σ price effect + Σ usage effect is `Σ(P1·Q1 − P0·Q0)/10000` over the materials present in both months |
| `VarianceCalc.MaterialRow` | backend/app/services/variance_calc.py:207-247 | a product with no previous items yields nothing; otherwise _PV and _UV records on BE_01/CE_MAT whose sum is the matched change and whose amounts are the item totals |
| `VarianceCalc.MaterialTotals` | backend/app/services/variance_calc.py:214-229 | the accumulation loop ends with the price and usage sums over the matched materials |
| `VarianceCalc.MaterialProductRecords` | backend/app/services/variance_calc.py:207-247 | the loop body appends exactly the product's records |
| `VarianceCalc.CalcBeMaterial` | backend/app/services/variance_calc.py:179-248 | `_calc_be_material_variance` returns the records of each product in first-appearance order |
| `VarianceCalc.CalculateAll` | backend/app/services/variance_calc.py:30-47 | front-end records, then back-end material, then back-end conversion, all against the previous month |
| `VarianceCalc.BomOf` | backend/app/services/variance_calc.py:208-209 | the BOM rows of one product: exactly the rows with that product code |
| `VarianceCalc.FirstMat` | backend/app/services/variance_calc.py:219-225 | `prev_match.iloc[0]`: a row of the list with that material, None exactly when no row has it |
| `SampleData.VarianceMonthsAdjacent` | backend/app/scripts/generate_sample_data.py:567-568 | the indices the variance step reads name "202501" and its previous month "202412" |
| `SampleData.Rate` | backend/app/scripts/generate_sample_data.py:67-69 | `_rate`: `rate · tb == tc · 10000`, and non-negative for a non-negative cost over a positive base |
| `SampleData.Amount` | backend/app/scripts/generate_sample_data.py:71-77 | `_amt` and `_mat_amt`, the same formula: `amount · 10000 == qty · rate` |
| `SampleData.AllocationReproducesCost` | backend/app/scripts/generate_sample_data.py:22-25 | allocating at `_rate(tc, tb)` over quantities that add up to tb allocates exactly tc |
| `SampleData.RawShare` | backend/app/scripts/generate_sample_data.py:217 | `max(base + growth, 0.1)`: at least 0.1, and equal to the sum or to 0.1 |
| `SampleData.NormaliseSum` | backend/app/scripts/generate_sample_data.py:218-221 | shares divided by their total and scaled to tb add up to tb |
| `SampleData.MonthQtySum` | backend/app/scripts/generate_sample_data.py:213-221 | one month's product quantities, before rounding, add up to that month's base |
| `SampleData.QtyTable` | backend/app/scripts/generate_sample_data.py:213-221 | a process's table holds six quantities for every product |
| `SampleData.QtyTableColumnSum` | backend/app/scripts/generate_sample_data.py:213-221 | column i of a process's table sums to the base of month i |
| `SampleData.RawShares` | backend/app/scripts/generate_sample_data.py:215-217 | the raw-share loop produces month i's clamped shares, product by product |
| `SampleData.AppendMonth` | backend/app/scripts/generate_sample_data.py:219-221 | the product loop appends each product's normalised quantity to its own list and nothing else |
| `SampleData.ComputeProcessQty` | backend/app/scripts/generate_sample_data.py:209-221 | the month loop of one process builds exactly its quantity table |
| `SampleData.ComputeQtyDef` | backend/app/scripts/generate_sample_data.py:206-222 | `_compute_qty_def` gives each process, in order, its products paired with their quantity lists |
| `SampleData.QtyDefShape` | backend/app/scripts/generate_sample_data.py:206-222 | every product gets six quantities per process, and each month's quantities add up to that month's base |
| `SampleData.Series` | backend/app/scripts/generate_sample_data.py:273-275 | month i's entry pairs month i's quantity with month i's price, for six months |
| `SampleData.BomEntriesFromTable` | backend/app/scripts/generate_sample_data.py:270-275 | every `BOM_DEF` entry comes from a (product, material) of the usage table, with month-aligned pairs |
| `SampleData.AddProductEntries` | backend/app/scripts/generate_sample_data.py:272-275 | the material loop appends one entry per material of the product, in order |
| `SampleData.BuildBomDef` | backend/app/scripts/generate_sample_data.py:270-275 | `BOM_DEF` holds one entry per product and material, in table order |
| `SampleData.RateCacheGet` | backend/app/scripts/generate_sample_data.py:662-668 | `_rate_cache_get` is None exactly when (proc, ce) has no rate series, and otherwise the month's `_rate(tc, tb)` |
| `SampleData.CeRecordDecomposition` | backend/app/scripts/generate_sample_data.py:580-614 | a cell yields nothing without a rate series, four records for an FE process and two otherwise; RV + QV is the change of the allocated amount; RC + RB is RV |
| `SampleData.CostBaseAttribution` | backend/app/scripts/generate_sample_data.py:601-607 | with the generator's own rates, the rate-cost part is all of the rate effect when the base is unchanged, and 0 when the cost is unchanged |
| `SampleData.CeRecordsSplitOnlyFe` | backend/app/scripts/generate_sample_data.py:574-614 | a BE process produces only RATE_VAR and QTY_VAR records |
| `SampleData.CellRecords` | backend/app/scripts/generate_sample_data.py:580-614 | the cost-element loop appends exactly the records of its cells |
| `SampleData.ProcessRecords` | backend/app/scripts/generate_sample_data.py:576-614 | the product loop appends exactly the records of its products |
| `SampleData.GroupByProduct` | backend/app/scripts/generate_sample_data.py:617-619 | `bom_by_prod` lists products in first-appearance order, each with its own entries |
| `SampleData.MaterialSplitExact` | backend/app/scripts/generate_sample_data.py:621-634 | price effect plus usage effect is exactly the change of the product's material cost |
| `SampleData.MaterialProductTotals` | backend/app/scripts/generate_sample_data.py:624-634 | the four running totals end at the price and usage sums and at the previous and current material costs |
| `SampleData.MaterialRecord` | backend/app/scripts/generate_sample_data.py:636-648 | a product yields _PV and _UV on BE_01/CE_MAT, and their sum is the change of its material cost |
| `SampleData.ProductMaterialRecords` | backend/app/scripts/generate_sample_data.py:621-648 | the loop body for one product builds exactly its two records |
| `SampleData.MaterialVariances` | backend/app/scripts/generate_sample_data.py:617-648 | two records per product of the BOM, in first-appearance order |
| `SampleData.InsertVarianceData` | backend/app/scripts/generate_sample_data.py:566-648 | the rate/quantity records of every process, product and cost element, followed by the material records |
| `CostNetworkTree.CountLeaves` | frontend/src/components/Dashboard/CostNetworkGraph.tsx:461-464 | `countLeaves` is at least 1, and exactly 1 for a node that is not expanded or has no children |
| `CostNetworkTree.SumLeaves` | frontend/src/components/Dashboard/CostNetworkGraph.tsx:463 | the `reduce` over siblings counts at least one leaf per sibling |
| `CostNetworkTree.CountLeavesMonotone` | frontend/src/components/Dashboard/CostNetworkGraph.tsx:461-464 | expanding more ids never decreases a leaf count |
| `CostNetworkTree.FindNode` | frontend/src/components/Dashboard/CostNetworkGraph.tsx:466-475 | a node `findNode` returns carries the requested id |
| `CostNetworkTree.FindNodeIsFirst` | frontend/src/components/Dashboard/CostNetworkGraph.tsx:466-475 | `findNode` returns the first node in pre-order whose id matches |
| `CostNetworkTree.FindNodeNone` | frontend/src/components/Dashboard/CostNetworkGraph.tsx:466-475 | `findNode` yields null exactly when no node of the tree has that id |
| `CostNetworkTree.FindNodeIn` | frontend/src/components/Dashboard/CostNetworkGraph.tsx:466-475 | what `findNode` returns is a node of the tree |
| `CostNetworkTree.FindUnique` | frontend/src/components/Dashboard/CostNetworkGraph.tsx:466-475 | with unique ids, searching for a node's id finds that very node |
| `CostNetworkTree.NodeColour` | frontend/src/components/Dashboard/CostNetworkGraph.tsx:477-483 | five buckets with strict lower bounds: red above 10, orange in (5,10], yellow in (0,5], light blue in (-5,0], blue at -5 and below |
| `CostNetworkTree.NodeSize` | frontend/src/components/Dashboard/CostNetworkGraph.tsx:32-34 | every kind has a base size, between 24 and 82 |
| `CostNetworkTree.NodeRadius` | frontend/src/components/Dashboard/CostNetworkGraph.tsx:485-489 | the radius lies in [base/2, 0.75·base] and reaches 0.75·base once \|variance\| >= 20 |
| `CostNetworkTree.RadiusByMagnitude` | frontend/src/components/Dashboard/CostNetworkGraph.tsx:485-489 | the radius depends only on \|variance\| and grows with it |
| `CostNetworkTree.LevelRadius` | frontend/src/components/Dashboard/CostNetworkGraph.tsx:526 | the ring radius of a level is its table entry, and the last entry for every deeper level |
| `CostNetworkTree.LayoutKeys` | frontend/src/components/Dashboard/CostNetworkGraph.tsx:524-542 | a node gets a position exactly when every ancestor on its path is expanded, and levels only grow with depth |
| `CostNetworkTree.LayoutWithin` | frontend/src/components/Dashboard/CostNetworkGraph.tsx:532-541 | every arc laid out under a node lies within that node's arc |
| `CostNetworkTree.LayoutDepth` | frontend/src/components/Dashboard/CostNetworkGraph.tsx:524-540 | with unique ids, a reached node at depth d below the node laid out at `level` is recorded as itself, at level `level + d`, with that level's ring radius |
| `CostNetworkTree.ChildLayoutsDepth` | frontend/src/components/Dashboard/CostNetworkGraph.tsx:533-540 | with distinct ids under the children, a reached node at depth d below them is recorded as itself, at level `level + d`, with that level's ring radius, whichever child it lies under |
| `CostNetworkTree.ArcsTile` | frontend/src/components/Dashboard/CostNetworkGraph.tsx:532-541 | `totalLeaves` is positive; the first child starts at the parent's start; child i spans leaves(i)/totalLeaves of the parent's width and ends where child i+1 starts; the last ends at the parent's end |
| `CostNetworkTree.OwnPlacement` | frontend/src/components/Dashboard/CostNetworkGraph.tsx:524-530 | with unique ids, a node's own entry (arc, level, ring radius) is not overwritten by a descendant |
| `CostNetworkTree.VisibleWithin` | frontend/src/components/Dashboard/CostNetworkGraph.tsx:524-542 | only ids of the tree appear in the layout |
| `CostNetworkTree.Share` | frontend/src/components/Dashboard/CostNetworkGraph.tsx:537 | a child's arc is non-negative and at most its proportional share of a non-negative width |
| `CostNetworkTree.AssignStep` | frontend/src/components/Dashboard/CostNetworkGraph.tsx:535-540 | one loop step advances `cur` to the start of the next child and adds that child's layout |
| `CostNetworkTree.Assign` | frontend/src/components/Dashboard/CostNetworkGraph.tsx:524-542 | `assign` adds exactly the layout of the node's visible subtree to the map |
| `CostNetworkTree.AssignChildren` | frontend/src/components/Dashboard/CostNetworkGraph.tsx:533-540 | the child loop with its running angle adds exactly the children's layouts |
| `CostNetworkTree.Positions` | frontend/src/components/Dashboard/CostNetworkGraph.tsx:521-547 | the positions are the layout of the root over [-π/2, 3π/2) at level 0; keys are the visible ids; every arc lies within the full turn; with unique ids, each node at depth d is recorded as itself at level d on ring `LevelRadius(d)` |
| `CostNetworkTree.BaseViewBox` | frontend/src/components/Dashboard/CostNetworkGraph.tsx:550-561 | a fixed 1000×1000 box for at most one position; otherwise every position lies at least 200 inside the box, and the minimum x and y lie exactly 200 inside |
| `CostNetworkTree.ViewWindow` | frontend/src/components/Dashboard/CostNetworkGraph.tsx:563-569 | the window is the base size divided by zoom, centred on the base centre minus the pan |
| `CostNetworkTree.FittedWindowIsBase` | frontend/src/components/Dashboard/CostNetworkGraph.tsx:563-569 | at zoom 1 with no pan the window is the base box |
| `CostNetworkView.CascadeIds` | frontend/src/components/Dashboard/CostNetworkGraph.tsx:507-510 | a collapse removes the id and every id under the node that carries it |
| `CostNetworkView.ClampZoom` | frontend/src/components/Dashboard/CostNetworkGraph.tsx:603 | the result lies in [0.25, 6]; an in-range value is unchanged and an out-of-range value goes to the nearer bound |
| `CostNetworkView.WheelFactor` | frontend/src/components/Dashboard/CostNetworkGraph.tsx:602 | scrolling down gives a factor below 1 and anything else a factor above 1; both are positive |
| `CostNetworkView.NetworkView.constructor` | frontend/src/components/Dashboard/CostNetworkGraph.tsx:493-498 | initial state: {root} expanded, no selection, zoom 1, no pan, no drag |
| `CostNetworkView.NetworkView.Collapse` | frontend/src/components/Dashboard/CostNetworkGraph.tsx:507-510 | the recursive `collapse` removes exactly the id and the ids below it |
| `CostNetworkView.NetworkView.CollapseChildren` | frontend/src/components/Dashboard/CostNetworkGraph.tsx:509 | the `forEach` removes exactly the ids under the children |
| `CostNetworkView.NetworkView.Toggle` | frontend/src/components/Dashboard/CostNetworkGraph.tsx:503-518 | `toggleNode` collapses with cascade or adds the id alone, selects the id, and changes nothing else |
| `CostNetworkView.NetworkView.WheelZoom` | frontend/src/components/Dashboard/CostNetworkGraph.tsx:600-604 | the wheel multiplies by 0.88 or 1.12 and clamps; the zoom stays in [0.25, 6] and moves in the scroll's direction |
| `CostNetworkView.NetworkView.ZoomIn` | frontend/src/components/Dashboard/CostNetworkGraph.tsx:645 | `min(z·1.3, 6)`: the zoom stays in range and never drops |
| `CostNetworkView.NetworkView.ZoomOut` | frontend/src/components/Dashboard/CostNetworkGraph.tsx:648 | `max(z·0.7, 0.25)`: the zoom stays in range and never rises |
| `CostNetworkView.NetworkView.MouseDown` | frontend/src/components/Dashboard/CostNetworkGraph.tsx:572-578 | a gesture starts at the cursor with the current pan remembered and no drag yet |
| `CostNetworkView.NetworkView.MouseMove` | frontend/src/components/Dashboard/CostNetworkGraph.tsx:580-592 | the gesture becomes a drag once the cursor is more than 4 pixels from its start; while dragging, the pan is the start pan plus the travel converted to view-box units; otherwise nothing moves |
| `CostNetworkView.NetworkView.MouseUp` | frontend/src/components/Dashboard/CostNetworkGraph.tsx:594 | the gesture ends |
| `CostNetworkView.NetworkView.NodeClick` | frontend/src/components/Dashboard/CostNetworkGraph.tsx:610-614 | a click after a drag changes nothing; otherwise a node with children toggles and any node becomes selected |
| `CostNetworkView.NetworkView.Reset` | frontend/src/components/Dashboard/CostNetworkGraph.tsx:617-622 | `resetView` sets {root} expanded, no selection, zoom 1 and no pan, so a second call changes nothing |
| `CostNetworkView.NetworkView.FitAll` | frontend/src/components/Dashboard/CostNetworkGraph.tsx:623 | `fitAll` sets zoom 1 and no pan and keeps expansion and selection, so a second call changes nothing |
| `CostNetworkView.NetworkView.Window` | frontend/src/components/Dashboard/CostNetworkGraph.tsx:563-569 | the current window is the base box scaled by 1/zoom |
| `CostNetworkView.CollapseCascade` | frontend/src/components/Dashboard/CostNetworkGraph.tsx:506-511 | after collapsing, neither the id nor any id in its data subtree remains, no id is added, and every other id is untouched |
| `CostNetworkView.ExpandOnly` | frontend/src/components/Dashboard/CostNetworkGraph.tsx:512-514 | expanding adds exactly that id |
| `CostNetworkView.ToggleRoundTrip` | frontend/src/components/Dashboard/CostNetworkGraph.tsx:503-518 | expanding and then collapsing an id restores the set when nothing below it was expanded |
| `CostNetworkView.CollapseThenExpand` | frontend/src/components/Dashboard/CostNetworkGraph.tsx:503-518 | collapsing and then expanding an id leaves it expanded with nothing below it expanded |
| `CostNetworkView.HomeWindow` | frontend/src/components/Dashboard/CostNetworkGraph.tsx:617-623 | after reset or fit-all the window is the base box |
| `CostNetworkView.DragMovesWindow` | frontend/src/components/Dashboard/CostNetworkGraph.tsx:586-591 | a drag moves the window opposite to the cursor by the cursor's travel in view-box units |
| `GraphExplorer.FindById` | frontend/src/components/Graph/GraphExplorer.tsx:134 | `allNodes.find(n => n.id === id)`: a node of the list with that id, None exactly when no node has it |
| `GraphExplorer.FindRoot` | frontend/src/components/Graph/GraphExplorer.tsx:126 | `allNodes.find(n => n.level === 0)`: a level-0 node of the list, None exactly when there is none |
| `GraphExplorer.Targets` | frontend/src/components/Graph/GraphExplorer.tsx:117-122 | a parent's child list holds exactly the targets of the links leaving it |
| `GraphExplorer.BuildChildMap` | frontend/src/components/Graph/GraphExplorer.tsx:117-122 | `childByParent` gives every source its link targets in link order, and has no key without a link |
| `GraphExplorer.TargetDeeper` | frontend/src/components/Graph/GraphExplorer.tsx:136-143 | when levels increase along links, a queued child is strictly deeper than its parent, so the queue empties |
| `GraphExplorer.PushChildren` | frontend/src/components/Graph/GraphExplorer.tsx:138-144 | the inner loop marks visible and queues exactly the qualifying children, in order |
| `GraphExplorer.VisibleFrom` | frontend/src/components/Graph/GraphExplorer.tsx:125-145 | the breadth-first pass ends with exactly the ids reachable from the root through opening parents and qualifying children |
| `GraphExplorer.ReachTransitive` | frontend/src/components/Graph/GraphExplorer.tsx:132-145 | whatever is reachable from a reachable id is reachable |
| `GraphExplorer.ReachClosed` | frontend/src/components/Graph/GraphExplorer.tsx:136-143 | a child of a visible parent that is expanded or has level < maxLevel − 1 is visible when it is a known node of level at most maxLevel |
| `GraphExplorer.ReachSound` | frontend/src/components/Graph/GraphExplorer.tsx:129-143 | every visible id other than the root is a qualifying child of a visible parent that opens |
| `GraphExplorer.ReachKnown` | frontend/src/components/Graph/GraphExplorer.tsx:139-140 | every visible id other than the root is a known node |
| `GraphExplorer.ShowVisible` | frontend/src/components/Graph/GraphExplorer.tsx:147-149 | the shown nodes are the visible input nodes, and `__expanded` is membership in the expanded set |
| `GraphExplorer.ShowVisibleOrdered` | frontend/src/components/Graph/GraphExplorer.tsx:147-149 | visible nodes keep their input order |
| `GraphExplorer.KeepLinks` | frontend/src/components/Graph/GraphExplorer.tsx:150-155 | a link survives exactly when both ends are shown, and the survivors keep their order |
| `GraphExplorer.ShownIdsAreVisible` | frontend/src/components/Graph/GraphExplorer.tsx:147-150 | when every visible id is a known node, the shown ids are exactly the visible set |
| `GraphExplorer.FilteredGraph` | frontend/src/components/Graph/GraphExplorer.tsx:111-157 | empty without data or without a level-0 node; otherwise the visible nodes from the pass and the links between shown nodes |
| `GraphExplorer.FilteredLinks` | frontend/src/components/Graph/GraphExplorer.tsx:147-155 | the shown ids are the visible set, and a link is kept exactly when both its ends are visible |
| `GraphExplorer.Explorer.constructor` | frontend/src/components/Graph/GraphExplorer.tsx:104-107 | the initial state has nothing expanded and ceiling 1 |
| `GraphExplorer.Explorer.NodeClick` | frontend/src/components/Graph/GraphExplorer.tsx:160-175 | toggles only the clicked id with no cascade; the ceiling never drops, and on expanding it becomes childLevel + 1 when childLevel reaches it |
| `GraphExplorer.Explorer.ExpandAll` | frontend/src/components/Graph/GraphExplorer.tsx:178-183 | without data nothing changes; otherwise the ceiling is 10 and every raw node id is expanded |
| `GraphExplorer.Explorer.CollapseAll` | frontend/src/components/Graph/GraphExplorer.tsx:184-188 | collapse-all, like the reset on a change of product or month, empties the set and sets the ceiling to 1 |
| `GraphExplorer.Explorer.View` | frontend/src/components/Graph/GraphExplorer.tsx:111-157 | the graph shown for the current expanded set and ceiling |
| `GraphExplorer.CollapsedShowsOnlyRoot` | frontend/src/components/Graph/GraphExplorer.tsx:104-107 | after collapse-all (nothing expanded, ceiling 1) exactly the root is visible, whenever the node found under the root's id has a level of at least 0 |
| `GraphExplorer.NonZero` | frontend/src/components/Graph/GraphExplorer.tsx:272-273 | `adx \|\| 0.001` is never 0 and leaves a non-zero offset unchanged |
| `GraphExplorer.ClipScale` | frontend/src/components/Graph/GraphExplorer.tsx:272-274 | the scale is positive, keeps both scaled offsets within the half-sizes, and makes one of them equal |
| `GraphExplorer.ClipRectInBox` | frontend/src/components/Graph/GraphExplorer.tsx:269-276 | the clipped point lies on the ray from the centre toward the target, inside the box (\|dx\| ≤ hw, \|dy\| ≤ hh), and on its border unless the ray is axis-parallel |
| `GraphExplorer.ClipAxis` | frontend/src/components/Graph/GraphExplorer.tsx:275 | one coordinate of the clipped point is the centre plus the scaled offset, within the half-size |
| `GraphExplorer.LinkSegment` | frontend/src/components/Graph/GraphExplorer.tsx:252-279 | nothing is painted when an end has no position or the centres are less than 1 apart; otherwise each end lies within its node's box plus 2 |
| `GraphExplorer.Qualifying` | frontend/src/components/Graph/GraphExplorer.tsx:138-140 | the children pushed are exactly the targets that are known nodes of level at most maxLevel, whether already visible or not |
| `GraphExplorer.ReachSelf` | frontend/src/components/Graph/GraphExplorer.tsx:129-130 | the root is visible |
| `GraphExplorer.ClipBounds` | frontend/src/components/Graph/GraphExplorer.tsx:272-275 | a scaled offset stays within its half-size, and meets it on the axis that bounds the scale |
| `Evidence.GetOr` | backend/app/services/evidence.py:147-151 | `d.get(key, default)`: the stored value when present, the default otherwise |
| `Evidence.GetOrZero` | backend/app/services/evidence.py:152-153 | `d.get(key, 0)`: the stored number when present, 0 otherwise |
| `Evidence.Amounts` | backend/app/services/evidence.py:81 | the amounts of the rows, one per row, in row order |
| `Evidence.Reverse` | backend/app/services/evidence.py:80 | `reversed(rows)`: element i is element n−1−i of the input |
| `Evidence.TimeSeriesOf` | backend/app/services/evidence.py:58-91 | an incomplete key or fewer than two rows gives the empty series; otherwise the data reversed, avg·n = sum of the amounts, latest = the newest amount, deviation·avg = (latest − avg)·100 and 0 when avg is 0 |
| `Evidence.SumWithin` | backend/app/services/evidence.py:82 | a sum of n values within [lo, hi] lies within [n·lo, n·hi] |
| `Evidence.MeanWithin` | backend/app/services/evidence.py:82 | the moving average lies between the smallest and the largest amount |
| `Evidence.DivideBounds` | backend/app/services/evidence.py:82 | dividing the bounded sum by the positive count keeps the bounds |
| `Evidence.Chronological` | backend/app/services/evidence.py:70-83 | rows newest first give data oldest first, and `latest` is the last data point |
| `Evidence.BuildEvidencePackage` | backend/app/services/evidence.py:23-42 | an error result naming the id exactly when the node is missing; otherwise the target, its time series and the three evidence lists unchanged |
| `Evidence.EventLineLabelled` | backend/app/services/evidence.py:164-166 | an event line has the form "  source: description" and holds a colon |
| `Evidence.SpreadLineLabelled` | backend/app/services/evidence.py:173 | a spread line with a non-null rate has the form "  product: rate" and holds a colon |
| `Evidence.SimilarLineLabelled` | backend/app/services/evidence.py:180-181 | a similar-case line with a non-null rate has the form "  month: rate (판정: …)" and holds a colon |
| `Evidence.NullColumnsPrintNone` | backend/app/services/evidence.py:173-181 | a null product code prints its spread line as "  None: …", and a null verdict ends the similar-case line with "(판정: None)" |
| `Evidence.SectionPlaceholder` | backend/app/services/evidence.py:162-183 | a section is the "해당 없음" placeholder exactly when its list is empty |
| `Evidence.LinesCount` | backend/app/services/evidence.py:163-166 | a list section has one line per entry |
| `Evidence.NewlineCountAppend` | backend/app/services/evidence.py:166 | appending text adds its line breaks to the count |
| `Evidence.AppendSection` | backend/app/services/evidence.py:162-168 | the loop appends exactly the section of the list (its lines, or the placeholder) to the prompt |
| `Evidence.FormatForLlm` | backend/app/services/evidence.py:138-192 | no prompt (the `TypeError` of formatting a null rate) exactly when some spread or similar-case rate is null; otherwise the header, the event section, the spread title and section, the similar-case title and section, and the fixed request, in that order |
| `Evidence.EmptyListsShowPlaceholder` | backend/app/services/evidence.py:162-183 | when every rate is non-null, each of the three lists renders as the placeholder exactly when it is empty |
| `LlmEngine.NameOf` | backend/app/services/llm_engine.py:278-283 | every provider kind has one of the four registry keys |
| `LlmEngine.Lookup` | backend/app/services/llm_engine.py:285 | `providers.get(name)`: a found provider carries that name, and None exactly for a name outside the four keys |
| `LlmEngine.LookupNameOf` | backend/app/services/llm_engine.py:278-285 | every provider is found under its own key |
| `LlmEngine.ChosenName` | backend/app/services/llm_engine.py:276 | a given non-empty name is used; an absent or empty one falls back to the setting |
| `LlmEngine.CreateLlmProvider` | backend/app/services/llm_engine.py:269-302 | a provider is returned only under the chosen name when it constructs and is available; None exactly for an unknown name, a failed construction or an unavailable provider |
| `LlmEngine.DefaultIsAzure` | backend/app/config.py:59 | with no name given, the default setting "azure_openai" selects Azure OpenAI when it can be set up |
| `LlmEngine.StripFence` | backend/app/services/llm_engine.py:418-423 | the text handed to the JSON parser is the stripped reply with a leading code fence removed |
| `LlmEngine.DropFences` | backend/app/services/llm_engine.py:420-423 | the fenced branch drops the opening line (or the three backticks when there is no newline) and one closing fence, then strips |
| `LlmEngine.NoFenceOnlyStripped` | backend/app/services/llm_engine.py:418-419 | a reply not opening with a fence is only stripped |
| `LlmEngine.TrimTrailingNewline` | backend/app/services/llm_engine.py:423 | a body with no surrounding whitespace survives a trailing newline and a strip |
| `LlmEngine.FencedBlockRoundTrip` | backend/app/services/llm_engine.py:418-423 | a body wrapped as a fenced block with a one-line language tag comes back unchanged |
| `LlmEngine.FirstNewline` | backend/app/services/llm_engine.py:420 | `split("\n", 1)` splits at the first newline |
| `LlmEngine.ClosingFenceOnce` | backend/app/services/llm_engine.py:421-422 | only one closing fence is removed: a doubled one leaves a fence in the text |
| `LlmEngine.DoubledFenceBody` | backend/app/services/llm_engine.py:419-422 | after removing the opening and one closing fence of a doubled closing fence, one fence remains |
| `LlmEngine.TrimKeepsTail` | backend/app/services/llm_engine.py:418 | stripping keeps a tail of three non-whitespace characters |
| `LlmEngine.RawPrefix` | backend/app/services/llm_engine.py:435 | `content[:500]`: a prefix of the reply of at most 500 characters, the whole reply when it is shorter |
| `LlmEngine.CallLlm` | backend/app/services/llm_engine.py:395-447 | no provider gives the fallback naming the configured provider; a raised error gives the error fallback; otherwise the parsed cleaned reply, or the parse-error fallback; every fallback is unclassified with low confidence and alert level 관찰 |
| `RuleEngine.RuleNumber` | backend/app/services/rule_engine.py:33-223 | each rule carries its number 1..6 |
| `RuleEngine.RuleNumberInjective` | backend/app/services/rule_engine.py:33-223 | distinct rules have distinct numbers |
| `RuleEngine.ExecuteAllRules` | backend/app/services/rule_engine.py:20-31 | six rules run, the i-th being rule i+1 |
| `RuleEngine.EachRuleOnce` | backend/app/services/rule_engine.py:24-29 | every rule runs exactly once, in increasing number order |
| `RuleEngine.LookbackStart` | backend/app/services/rule_engine.py:228-237 | the window start is `lookback` months before the input month (as a month index), its month is at least 1 (and at most 12 when it started there), the year is unchanged when the look-back is below the month, and the string is its zero-padded yyyymm |
| `RuleEngine.LookbackIsShift` | backend/app/services/rule_engine.py:231-237 | for a valid month and a non-negative look-back the window start is the calendar month `lookback` months earlier, as the shared month arithmetic computes it |
| `ReportApi.TotalGetAbsent` | backend/app/api/report.py:41-87 | `totals.get(month, 0)` reads 0 for a month without a row |
| `ReportApi.TotalGetLast` | backend/app/api/report.py:41 | the dict comprehension keeps the last row of a month |
| `ReportApi.GroupItemOf` | backend/app/api/report.py:58-66 | curr and prev default to 0, diff = curr − prev, rate·prev = diff·100 when prev is non-zero, and rate is 0 without a prev |
| `ReportApi.Unsorted` | backend/app/api/report.py:56-66 | one group item per query row |
| `ReportApi.BuildGroups` | backend/app/api/report.py:56-66 | the loop appends exactly the item of each row, in row order |
| `ReportApi.SliceTo` | backend/app/api/report.py:89 | Python's `s[:n]`: a prefix of length min(n, len) for n ≥ 0, and of length max(len + n, 0) for negative n |
| `ReportApi.ExecutiveSummaryReport` | backend/app/api/report.py:18-91 | fails exactly when a month total is NULL; otherwise the two totals, and the group items in a stable permutation sorted by descending absolute diff, cut to the top N, each kept item at least as large as every dropped one |
| `ReportPage.CeName` | frontend/src/components/Report/ReportPage.tsx:11-16 | the element's name from the fixed table when it has one, the code itself otherwise, and "" for a missing or empty code |
| `ReportPage.VarLabel` | frontend/src/components/Report/ReportPage.tsx:15-26 | the fixed label of each of the six known types, RATE_COST prefixed by the element name, and any other type shown as itself |
| `ReportPage.LabelIsTypeIff` | frontend/src/components/Report/ReportPage.tsx:17-25 | a type is shown as itself exactly when it is not one of the six known types |
| `ReportPage.LabelIgnoresCeUnlessRateCost` | frontend/src/components/Report/ReportPage.tsx:16-25 | the cost element changes the label only for RATE_COST |
| `ReportPage.RateCostLabelParts` | frontend/src/components/Report/ReportPage.tsx:20 | a RATE_COST label is the element name followed by " 총액 증감" |
| `ReportPage.OrZero` | frontend/src/components/Report/ReportPage.tsx:31 | `x \|\| 0`: the number when present, 0 otherwise |
| `ReportPage.ExecutiveChange` | frontend/src/components/Report/ReportPage.tsx:29-32 | diff = curr − prev with missing totals as 0; rate·prev = diff·100 when prev is non-zero, 0 otherwise |
| `ReportPage.ExecutiveChangeAgreesWithApi` | frontend/src/components/Report/ReportPage.tsx:30-32 | the page shows the same difference and rate the dashboard API computes from the same totals |
| `ReportPage.WithKey` | frontend/src/components/Report/ReportPage.tsx:106-109 | the rows carrying a given product_proc_ce key, never more than the input |
| `ReportPage.GroupVariances` | frontend/src/components/Report/ReportPage.tsx:104-111 | the reduce produces the listed keys and the key-to-group map of the specification functions |
| `ReportPage.KeysAreDomain` | frontend/src/components/Report/ReportPage.tsx:106-111 | the listed keys are exactly the keys of the accumulator |
| `ReportPage.KeysDistinctAndComplete` | frontend/src/components/Report/ReportPage.tsx:106-111 | each key is listed once, and a key is listed exactly when some row has it |
| `ReportPage.GroupItems` | frontend/src/components/Report/ReportPage.tsx:109 | a group's items are exactly the rows with its key, in input order |
| `ReportPage.GroupHead` | frontend/src/components/Report/ReportPage.tsx:108 | a group's head fields are those of the first row with its key |
| `ReportPage.NoGroupNoRows` | frontend/src/components/Report/ReportPage.tsx:108 | a key without a group has no rows |
| `ReportPage.BadgeOf` | frontend/src/components/Report/ReportPage.tsx:136-138 | info exactly when the type contains RATE, warning exactly when it contains PRICE but not RATE, success otherwise |
| `ReportPage.KnownTypeBadges` | frontend/src/components/Report/ReportPage.tsx:136-138 | the three RATE types are info, PRICE_VAR a warning, QTY_VAR and USAGE_VAR success |
| `ReportPage.NoRate` | frontend/src/components/Report/ReportPage.tsx:137 | a string with no "AT" does not contain "RATE" |
| `ReportPage.NoPrice` | frontend/src/components/Report/ReportPage.tsx:138 | a string with no "PR" does not contain "PRICE" |
| `ReportPage.ConfigFor` | frontend/src/components/Report/ReportPage.tsx:311-348 | a missing or empty route type selects the executive report; a found report has the route's name; "not found" exactly for a name of no report |
| `ReportPage.RouteRoundTrip` | frontend/src/components/Report/ReportPage.tsx:311-340 | every report is reached through its own route name |
| `DashboardPage.StatusOf` | frontend/src/components/Dashboard/DashboardPage.tsx:448 | high exactly when \|diff\| > 20, medium exactly when 5 < \|diff\| ≤ 20, decrease exactly for −5 ≤ diff < 0, normal exactly for 0 ≤ diff ≤ 5 |
| `DashboardPage.LargeDropIsNotDecrease` | frontend/src/components/Dashboard/DashboardPage.tsx:448 | a drop of more than 5 is never shown as a decrease |
| `DashboardPage.VarianceColor` | frontend/src/components/Dashboard/DashboardPage.tsx:965-970 | red exactly above 15, orange exactly in (5, 15], amber exactly in (0, 5], blue otherwise |
| `DashboardPage.VarianceColorMonotone` | frontend/src/components/Dashboard/DashboardPage.tsx:965-970 | a larger variance never gets a cooler colour |
| `DashboardPage.ChangeRate` | frontend/src/components/Dashboard/DashboardPage.tsx:685-686 | with prev = amount − change: rate·prev = change·100 when prev is non-zero, 0 otherwise |
| `DashboardPage.ChangeRateRestores` | frontend/src/components/Dashboard/DashboardPage.tsx:685-686 | applying the rate to the previous amount gives back the current amount |
| `DashboardPage.CostElementCards` | frontend/src/components/Dashboard/DashboardPage.tsx:682-686 | the cards are a stable permutation of the items sorted by change, largest first, each with its change rate |
| `DashboardPage.DriverChangeOf` | frontend/src/components/Dashboard/DashboardPage.tsx:1359-1360 | change + previous = current; changePercent·previous = change·100 when previous is non-zero, 0 otherwise |
| `DashboardPage.BarWidth` | frontend/src/components/Dashboard/DashboardPage.tsx:1430 | the bar width is \|pct\| capped at 100: within [0, 100], never above \|pct\|, and equal to it up to 100 |
| `DashboardPage.BarWidthSymmetric` | frontend/src/components/Dashboard/DashboardPage.tsx:1430 | increases and decreases of the same size draw the same width |
| `DashboardPage.ElementShare` | frontend/src/components/Dashboard/DashboardPage.tsx:1125-1126 | a share is non-negative, and 0 unless the total is positive |
| `DashboardPage.ShareTimesTotal` | frontend/src/components/Dashboard/DashboardPage.tsx:1126 | a share times the positive total gives back the element's part in percent |
| `DashboardPage.SharesScale` | frontend/src/components/Dashboard/DashboardPage.tsx:1125-1126 | the shares sum, times the total, to 100 times the sum of absolute variances |
| `DashboardPage.ElementGrid` | frontend/src/components/Dashboard/DashboardPage.tsx:1122-1126 | the grid is a stable permutation of the elements by descending absolute variance, each with its non-negative share; the shares add to 100 when the total is positive and are all 0 when it is 0 |
| `DashboardPage.Shares` | frontend/src/components/Dashboard/DashboardPage.tsx:1124-1126 | one share per element, in order |
| `DashboardPage.SharesSumTo100` | frontend/src/components/Dashboard/DashboardPage.tsx:1123-1126 | shares computed over a reordering of the elements still add to 100 |
| `DashboardPage.AbsTotalNonNegative` | frontend/src/components/Dashboard/DashboardPage.tsx:1125 | the total of absolute variances is non-negative |
| `DashboardPage.SeqMin` | frontend/src/components/Dashboard/DashboardPage.tsx:747 | `Math.min(...data)`: an element of the data no larger than any other |
| `DashboardPage.SeqMax` | frontend/src/components/Dashboard/DashboardPage.tsx:748 | `Math.max(...data)`: an element of the data no smaller than any other |
| `DashboardPage.Range` | frontend/src/components/Dashboard/DashboardPage.tsx:749 | `max - min \|\| 1` is positive |
| `DashboardPage.Sparkline` | frontend/src/components/Dashboard/DashboardPage.tsx:746-754 | nothing is drawn exactly for empty data; otherwise one point per value |
| `DashboardPage.UnitQuotient` | frontend/src/components/Dashboard/DashboardPage.tsx:752 | a value in [0, r] divided by a positive r lies in [0, 1] |
| `DashboardPage.ScaledToHundred` | frontend/src/components/Dashboard/DashboardPage.tsx:1126 | a share sum s with s·t = t·100 for positive t is 100 |
| `DashboardPage.UnitScale` | frontend/src/components/Dashboard/DashboardPage.tsx:751-752 | scaling a length by a factor in [0, 1] stays within [0, length] |
| `DashboardPage.Normalised` | frontend/src/components/Dashboard/DashboardPage.tsx:747-752 | (v − min) / range lies in [0, 1] for every value |
| `DashboardPage.RangeFraction` | frontend/src/components/Dashboard/DashboardPage.tsx:749-752 | a value between min and max gives a fraction in [0, 1] of the guarded range |
| `DashboardPage.SparkXWithin` | frontend/src/components/Dashboard/DashboardPage.tsx:751 | with at least two points every x lies in [0, width] |
| `DashboardPage.SparkYWithin` | frontend/src/components/Dashboard/DashboardPage.tsx:752 | with height ≥ 4 every y lies in [2, height − 2] |
| `DashboardPage.MarginScale` | frontend/src/components/Dashboard/DashboardPage.tsx:752 | height − g·(height − 4) − 2 lies in [2, height − 2] for g in [0, 1] |
| `DashboardPage.SparklineInBox` | frontend/src/components/Dashboard/DashboardPage.tsx:746-754 | with at least two points and room for the margins, every point lies inside the box |
| `DashboardPage.FlatSparkline` | frontend/src/components/Dashboard/DashboardPage.tsx:749-752 | flat data is drawn along the bottom margin, y = height − 2 |
| `DashboardPage.SinglePointHasNoX` | frontend/src/components/Dashboard/DashboardPage.tsx:751 | a single point has x = 0/0, which is undefined |
| `DashboardPage.Filter` | frontend/src/components/Dashboard/DashboardPage.tsx:961-962 | `data.filter(keep)`: no longer than the input, holding exactly the kept elements |
| `DashboardPage.FilterAppend` | frontend/src/components/Dashboard/DashboardPage.tsx:961-962 | filtering keeps input order: it distributes over concatenation |
| `DashboardPage.ProcessSplit` | frontend/src/components/Dashboard/DashboardPage.tsx:961-962 | a process typed FE is only front-end, one typed BE only back-end, an untyped one appears where its amount is positive, and another type in neither |
| `DashboardPage.ProductColor` | frontend/src/components/Dashboard/DashboardPage.tsx:464 | the group's own colour when it has a non-empty one, otherwise the pie palette at the position modulo its length |
| `DashboardPage.ProductColorFrom` | frontend/src/components/Dashboard/DashboardPage.tsx:119-130 | every colour comes from the group table or the palette, and an unlisted group repeats every six positions |
| `ChatPage.MatchFrom` | frontend/src/components/Chat/ChatPage.tsx:387-391 | the inner loop finds a match exactly when some remaining pattern matches the question |
| `ChatPage.FindLocalAnswer` | frontend/src/components/Chat/ChatPage.tsx:385-394 | None exactly when no pattern of any entry matches; otherwise the answer of the first matching entry |
| `ChatPage.FirstMatchWins` | frontend/src/components/Chat/ChatPage.tsx:386-390 | the first entry in knowledge-base order with a matching pattern supplies the answer |
| `ChatPage.ReplyTo` | frontend/src/components/Chat/ChatPage.tsx:425-438 | the API's answer when the call succeeds; otherwise the local answer, or the default answer when it is missing or empty |
| `ChatPage.FallbackWithoutMatch` | frontend/src/components/Chat/ChatPage.tsx:434-438 | a failed call with no matching pattern shows the default answer |
| `ChatPage.FallbackToFirstMatch` | frontend/src/components/Chat/ChatPage.tsx:434-438 | a failed call shows the first matching entry's non-empty answer |
| `ChatPage.SendText` | frontend/src/components/Chat/ChatPage.tsx:444-446 | nothing is sent exactly when loading or the input is blank; otherwise the trimmed input, non-empty, without surrounding whitespace, and occurring in the input |
| `ChatPage.Chat.constructor` | frontend/src/components/Chat/ChatPage.tsx:411-413 | the page starts with no messages, an empty input and not loading |
| `ChatPage.Chat.StartQuestion` | frontend/src/components/Chat/ChatPage.tsx:421-423 | the question is appended as a user message and loading starts, alternating user and assistant messages |
| `ChatPage.Chat.FinishQuestion` | frontend/src/components/Chat/ChatPage.tsx:426-441 | the reply is appended as an assistant message and loading stops |
| `ChatPage.Chat.HandleSend` | frontend/src/components/Chat/ChatPage.tsx:444-449 | a blank input or a pending answer changes nothing; otherwise the trimmed input is asked, the input cleared and loading started |
| `ChatPage.Chat.SetInput` | frontend/src/components/Chat/ChatPage.tsx:576 | typing replaces the input and nothing else |
| `ChatPage.Chat.HandleKeyDown` | frontend/src/components/Chat/ChatPage.tsx:456-461 | Enter without Shift sends when there is something to send and nothing is loading, and otherwise changes nothing; every other key changes nothing |
| `ChatPage.Chat.HandleQuickQuestion` | frontend/src/components/Chat/ChatPage.tsx:451-454 | ignored while loading; otherwise the question is asked as is |

## Left out

- Rounding (`round`, `toFixed`, `Math.round`) and floating point: values are exact `real`s, so the decompositions, shares and means are stated exactly, before rounding.
- SQL and Cypher queries, and all database plumbing: each query result is an input sequence of rows, in the order the query returns them.
- Language-model network calls and `json.loads`: the reply (an answer or a raised error) and the parser are parameters of `LlmEngine.CallLlm`. Whether a provider class constructs and whether its key is set are predicates passed to `LlmEngine.CreateLlmProvider`.
- The chat API call and its 600 ms delay: `ChatPage.ReplyTo` receives the API's answer as an optional value.
- The regular-expression engine: `ChatPage.FindLocalAnswer` takes the pattern test as a predicate.
- Number formatting in the prompt (`:.1f`, `:.1%`): `Evidence.FormatForLlm` takes the two formatters as functions.
- Trigonometry (`cos`, `sin`, `atan2`, `hypot`): the network layout is modelled as angular arcs (in turns), levels and ring radii, not Cartesian positions. `CostNetworkTree.BaseViewBox` works on given positions.
- `measureNode` (canvas `measureText`), the `ForceGraph2D` physics, `zoomToFit`, `setTimeout` and all rendering (JSX, SVG, charts, animation).
- Async and react-query concurrency: `processQuestion` is split into `ChatPage.Chat.StartQuestion` and `ChatPage.Chat.FinishQuestion`, and interleavings of several pending requests are not modelled.
- The cost-team, production-team and purchase-team reports, the analysis, chat and main route files, and the `api.ts` wrappers: they only pass query results through.
- Orchestration scripts, configuration and schema files, and the insert and print functions of the sample-data generator. The settings used (`LLM_PROVIDER`, `REPORT_TOP_N`, `SIMILAR_LOOKBACK_MONTHS`) appear as constants or parameters.
- GraphExplorer.VisibleFrom: requires levels to increase strictly along every link between known nodes. The source never checks whether a node was already visited, so on a cycle its queue never empties. An acyclic graph with a link between equal levels also terminates in the source, but it is outside the model.
- CostNetworkView.NetworkView.Toggle: requires ids to be unique in the tree, as do `Collapse`, `CollapseChildren` and `CostNetworkView.CollapseCascade`. When an id reappears below itself, the source's recursive collapse finds the upper node again and never returns.
- ChatPage.FindLocalAnswer: a pattern's test is a pure predicate, so the `lastIndex` state of a global regular expression is not modelled.
- ReportApi.Unsorted: its contract states only that there is one item per row. The item of each row is stated by `ReportApi.BuildGroups` and, after sorting, by `ReportApi.ExecutiveSummaryReport` through `ReportApi.GroupItemOf`.
- DashboardPage.Sparkline: its contract states only when there is a drawing and how many points it has. The bounds of the points are stated by `DashboardPage.SparklineInBox`, `DashboardPage.FlatSparkline` and `DashboardPage.SinglePointHasNoX`.
- ReportPage.ConfigFor: looks the route type up among the four report kinds only. In the source `reportConfig` is a plain object, so a route type naming an inherited property (`constructor`, `toString`, `valueOf`, `hasOwnProperty`, `__proto__`) finds a truthy value and skips the not-found card. The model returns no configuration for those names, so its "not found exactly when no kind has that route name" does not hold of the source for them.
- Period.PrevMonth: requires that the month string begin with six decimal digits, as do `Period.MonthsRange`, `Period.MonthLabel`, `VarianceCalc.CalculateAll`, `RuleEngine.LookbackStart`, `ReportApi.ExecutiveSummaryReport`, `DashboardApi.TrendPivot` and `DashboardApi.CostElementDrilldown`. The `ValueError` that `int()` raises on a malformed month such as `"2024ab"` is not modelled. Neither is `int()` accepting a sign or surrounding whitespace in the year or month digits.
- DashboardApi.Node: has no `sublabel` and no `source_type` field, so `DashboardApi.GetGraphData` does not state them. These are the display captions of every node kind (backend/app/api/dashboard.py:430-432, 449-554) and the event's source table; no id, level, amount or link depends on them.
