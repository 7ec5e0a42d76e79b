// The variance engine: it splits the month-over-month change of allocated
// front-end cost into a rate and a quantity part (and the rate part into a
// total-cost and a total-base effect), the back-end material change into a
// price and a usage part, and the back-end conversion change like the front
// end. Query results are the inputs; amounts are exact reals (no rounding).
module VarianceCalc {
  import opened Common
  import Period

  /** A row of the allocation-rate snapshot. */
  datatype RateRow = RateRow(yyyymm: string, proc: string, ce: string, totalCost: real, totalBase: real, allocRate: real)

  /** A row of the allocation result: a product's quantity and amount for one process and cost element. */
  datatype AllocRow = AllocRow(yyyymm: string, product: string, proc: string, ce: string, qty: real, amt: real)

  /** A bill-of-materials row. */
  datatype BomRow = BomRow(yyyymm: string, product: string, mat: string, qty: real, price: real, matAmt: real)

  /** A variance record, as stored in the variance table. */
  datatype Variance = Variance(
    varId: string, yyyymm: string, product: string, grp: string, proc: string, ce: string,
    varType: string, varAmt: real, varRate: real, prevAmt: real, currAmt: real)

  const RateVar: string := "RATE_VAR"
  const QtyVar: string := "QTY_VAR"
  const RateCost: string := "RATE_COST"
  const RateBase: string := "RATE_BASE"
  const PriceVar: string := "PRICE_VAR"
  const UsageVar: string := "USAGE_VAR"

  /** Amounts are kept in units of 10,000 and reported in units of 100,000,000. */
  const Unit: real := 10000.0

  // -----------------------------------------------------------------
  // The record builder and the decomposition formulas
  // -----------------------------------------------------------------

  /** `_make_variance`: the ratio var_amt / prev_amt (0 when prev_amt is 0); every other field copied. */
  function MakeVariance(varId: string, yyyymm: string, product: string, grp: string, proc: string, ce: string,
                        varType: string, varAmt: real, prevAmt: real, currAmt: real): (v: Variance)
    ensures v.varId == varId && v.yyyymm == yyyymm && v.product == product && v.grp == grp
    ensures v.proc == proc && v.ce == ce && v.varType == varType
    ensures v.varAmt == varAmt && v.prevAmt == prevAmt && v.currAmt == currAmt
    ensures prevAmt != 0.0 ==> v.varRate * prevAmt == varAmt
    ensures prevAmt == 0.0 ==> v.varRate == 0.0
  {
    var varRate := if prevAmt != 0.0 then varAmt / prevAmt else 0.0;
    Variance(varId, yyyymm, product, grp, proc, ce, varType, varAmt, varRate, prevAmt, currAmt)
  }

  /** (R₁ − R₀) · Q₁ / 10000: the change caused by the rate. */
  function RateEffect(r1: real, r0: real, q1: real): real
  {
    (r1 - r0) * q1 / Unit
  }

  /** R₀ · (Q₁ − Q₀) / 10000: the change caused by the quantity. */
  function QtyEffect(r0: real, q1: real, q0: real): real
  {
    r0 * (q1 - q0) / Unit
  }

  /** (C₁ − C₀) · Q₁ / B₀, or 0 when B₀ is 0: the part of the rate change due to the total cost. */
  function CostEffect(c1: real, c0: real, q1: real, b0: real): (r: real)
    ensures b0 == 0.0 ==> r == 0.0
    ensures b0 != 0.0 ==> r * b0 == (c1 - c0) * q1
  {
    if b0 != 0.0 then (c1 - c0) * q1 / b0 else 0.0
  }

  /** Rate and quantity effects add up to the whole change R₁Q₁ − R₀Q₀ (in units). */
  lemma RateQtySplit(r1: real, r0: real, q1: real, q0: real)
    ensures RateEffect(r1, r0, q1) + QtyEffect(r0, q1, q0) == (r1 * q1 - r0 * q0) / Unit
  {
    assert (r1 - r0) * q1 + r0 * (q1 - q0) == r1 * q1 - r0 * q0;
  }

  /** The variance id stem V{yyyymm}_{product}_{proc}_{ce}. */
  function VarIdBase(yyyymm: string, product: string, proc: string, ce: string): string
  {
    "V" + yyyymm + "_" + product + "_" + proc + "_" + ce
  }

  // -----------------------------------------------------------------
  // Row selection
  // -----------------------------------------------------------------

  /** The rows of one month, in their original order; `month` reads a row's "YYYYMM". */
  function InMonth<T(==,!new)>(rows: seq<T>, month: T -> string, yyyymm: string): (r: seq<T>)
    ensures forall x :: x in r <==> x in rows && month(x) == yyyymm
  {
    if rows == [] then []
    else
      var last := rows[|rows| - 1];
      assert forall x :: x in rows <==> x in rows[..|rows| - 1] || x == last;
      InMonth(rows[..|rows| - 1], month, yyyymm) + (if month(last) == yyyymm then [last] else [])
  }

  function RateMonth(x: RateRow): string { x.yyyymm }
  function AllocMonth(x: AllocRow): string { x.yyyymm }
  function BomMonth(x: BomRow): string { x.yyyymm }

  /** The first previous-month allocation row of the same product, process and cost element. */
  function FirstAlloc(rows: seq<AllocRow>, product: string, proc: string, ce: string): (r: Option<AllocRow>)
    ensures r.Some? ==> r.value in rows && r.value.product == product && r.value.proc == proc && r.value.ce == ce
    ensures r.None? <==> forall x :: x in rows ==> !(x.product == product && x.proc == proc && x.ce == ce)
  {
    if rows == [] then None
    else if rows[0].product == product && rows[0].proc == proc && rows[0].ce == ce then Some(rows[0])
    else FirstAlloc(rows[1..], product, proc, ce)
  }

  /** The first rate row of a process and cost element. */
  function FirstRate(rows: seq<RateRow>, proc: string, ce: string): (r: Option<RateRow>)
    ensures r.Some? ==> r.value in rows && r.value.proc == proc && r.value.ce == ce
    ensures r.None? <==> forall x :: x in rows ==> !(x.proc == proc && x.ce == ce)
  {
    if rows == [] then None
    else if rows[0].proc == proc && rows[0].ce == ce then Some(rows[0])
    else FirstRate(rows[1..], proc, ce)
  }

  // -----------------------------------------------------------------
  // Front-end allocation variance
  // -----------------------------------------------------------------

  /** The records one current-month row produces: four when it has a previous match and both rates, else none. */
  function FeRow(yyyymm: string, row: AllocRow, prevAlloc: seq<AllocRow>, currRates: seq<RateRow>,
                 prevRates: seq<RateRow>, grp: string -> string): (r: seq<Variance>)
    ensures |r| == 0 || |r| == 4
    ensures |r| == 4 <==>
      FirstAlloc(prevAlloc, row.product, row.proc, row.ce).Some?
      && FirstRate(currRates, row.proc, row.ce).Some? && FirstRate(prevRates, row.proc, row.ce).Some?
  {
    match FirstAlloc(prevAlloc, row.product, row.proc, row.ce)
    case None => []
    case Some(p) =>
      match FirstRate(currRates, row.proc, row.ce)
      case None => []
      case Some(r1) =>
        match FirstRate(prevRates, row.proc, row.ce)
        case None => []
        case Some(r0) =>
          var rateVar := RateEffect(r1.allocRate, r0.allocRate, row.qty);
          var qtyVar := QtyEffect(r0.allocRate, row.qty, p.qty);
          var rateCost := CostEffect(r1.totalCost, r0.totalCost, row.qty, r0.totalBase);
          var rateBase := rateVar - rateCost;
          var base := VarIdBase(yyyymm, row.product, row.proc, row.ce);
          var g := grp(row.product);
          [MakeVariance(base + "_RV", yyyymm, row.product, g, row.proc, row.ce, RateVar, rateVar, p.amt, row.amt),
           MakeVariance(base + "_QV", yyyymm, row.product, g, row.proc, row.ce, QtyVar, qtyVar, p.amt, row.amt),
           MakeVariance(base + "_RC", yyyymm, row.product, g, row.proc, row.ce, RateCost, rateCost, p.amt, row.amt),
           MakeVariance(base + "_RB", yyyymm, row.product, g, row.proc, row.ce, RateBase, rateBase, p.amt, row.amt)]
  }


  /**
   * The four records of a matched row: their ids and types, rate plus quantity
   * effect is the whole change, total-cost plus total-base effect is the rate
   * effect, the cost effect is 0 without a previous base, and all four carry
   * the previous and current amounts.
   */
  lemma {:induction false} FeRowDecomposition(yyyymm: string, row: AllocRow, prevAlloc: seq<AllocRow>, currRates: seq<RateRow>,
                           prevRates: seq<RateRow>, grp: string -> string)
    requires FirstAlloc(prevAlloc, row.product, row.proc, row.ce).Some?
    requires FirstRate(currRates, row.proc, row.ce).Some? && FirstRate(prevRates, row.proc, row.ce).Some?
    ensures var r := FeRow(yyyymm, row, prevAlloc, currRates, prevRates, grp);
      var p := FirstAlloc(prevAlloc, row.product, row.proc, row.ce).value;
      var r1 := FirstRate(currRates, row.proc, row.ce).value;
      var r0 := FirstRate(prevRates, row.proc, row.ce).value;
      var base := VarIdBase(yyyymm, row.product, row.proc, row.ce);
      r[0].varId == base + "_RV" && r[1].varId == base + "_QV"
      && r[2].varId == base + "_RC" && r[3].varId == base + "_RB"
      && r[0].varType == RateVar && r[1].varType == QtyVar
      && r[2].varType == RateCost && r[3].varType == RateBase
      && r[0].varAmt + r[1].varAmt == (r1.allocRate * row.qty - r0.allocRate * p.qty) / Unit
      && r[2].varAmt + r[3].varAmt == r[0].varAmt
      && (r0.totalBase == 0.0 ==> r[2].varAmt == 0.0)
      && forall k :: 0 <= k < 4 ==> r[k].prevAmt == p.amt && r[k].currAmt == row.amt && r[k].yyyymm == yyyymm
  {
    var p := FirstAlloc(prevAlloc, row.product, row.proc, row.ce).value;
    var r1 := FirstRate(currRates, row.proc, row.ce).value;
    var r0 := FirstRate(prevRates, row.proc, row.ce).value;
    var rateVar := RateEffect(r1.allocRate, r0.allocRate, row.qty);
    var qtyVar := QtyEffect(r0.allocRate, row.qty, p.qty);
    var rateCost := CostEffect(r1.totalCost, r0.totalCost, row.qty, r0.totalBase);
    var base := VarIdBase(yyyymm, row.product, row.proc, row.ce);
    var g := grp(row.product);
    var r := FeRow(yyyymm, row, prevAlloc, currRates, prevRates, grp);
    assert r == [MakeVariance(base + "_RV", yyyymm, row.product, g, row.proc, row.ce, RateVar, rateVar, p.amt, row.amt),
                 MakeVariance(base + "_QV", yyyymm, row.product, g, row.proc, row.ce, QtyVar, qtyVar, p.amt, row.amt),
                 MakeVariance(base + "_RC", yyyymm, row.product, g, row.proc, row.ce, RateCost, rateCost, p.amt, row.amt),
                 MakeVariance(base + "_RB", yyyymm, row.product, g, row.proc, row.ce, RateBase, rateVar - rateCost, p.amt, row.amt)];
    RateQtySplit(r1.allocRate, r0.allocRate, row.qty, p.qty);
  }

  /** The records of a list of current-month rows, in row order. */
  function FeRows(yyyymm: string, rows: seq<AllocRow>, prevAlloc: seq<AllocRow>, currRates: seq<RateRow>,
                  prevRates: seq<RateRow>, grp: string -> string): seq<Variance>
  {
    if rows == [] then []
    else FeRows(yyyymm, rows[..|rows| - 1], prevAlloc, currRates, prevRates, grp)
         + FeRow(yyyymm, rows[|rows| - 1], prevAlloc, currRates, prevRates, grp)
  }

  /** The front-end result for the current and previous month. */
  function FeVariances(yyyymm: string, prevMonth: string, rates: seq<RateRow>, alloc: seq<AllocRow>,
                       grp: string -> string): seq<Variance>
  {
    if rates == [] || alloc == [] then []
    else FeRows(yyyymm, InMonth(alloc, AllocMonth, yyyymm), InMonth(alloc, AllocMonth, prevMonth),
                InMonth(rates, RateMonth, yyyymm), InMonth(rates, RateMonth, prevMonth), grp)
  }

  lemma FeRowsSnoc(yyyymm: string, rows: seq<AllocRow>, i: nat, prevAlloc: seq<AllocRow>,
                   currRates: seq<RateRow>, prevRates: seq<RateRow>, grp: string -> string)
    requires i < |rows|
    ensures FeRows(yyyymm, rows[..i + 1], prevAlloc, currRates, prevRates, grp)
         == FeRows(yyyymm, rows[..i], prevAlloc, currRates, prevRates, grp)
          + FeRow(yyyymm, rows[i], prevAlloc, currRates, prevRates, grp)
  {
    assert rows[..i + 1][..i] == rows[..i];
  }

  /** One current-month row of the front-end walk: its four records, or none when a match is missing. */
  method FeRowRecords(yyyymm: string, row: AllocRow, prevAlloc: seq<AllocRow>, currRates: seq<RateRow>,
                      prevRates: seq<RateRow>, grp: string -> string) returns (block: seq<Variance>)
    ensures block == FeRow(yyyymm, row, prevAlloc, currRates, prevRates, grp)
  {
    block := [];
    var prevMatch := FirstAlloc(prevAlloc, row.product, row.proc, row.ce);
    if prevMatch.None? {
      return;
    }
    var q1 := row.qty;
    var q0 := prevMatch.value.qty;
    var currRateMatch := FirstRate(currRates, row.proc, row.ce);
    var prevRateMatch := FirstRate(prevRates, row.proc, row.ce);
    if currRateMatch.None? || prevRateMatch.None? {
      return;
    }
    var r1, r0 := currRateMatch.value.allocRate, prevRateMatch.value.allocRate;
    var c1, c0 := currRateMatch.value.totalCost, prevRateMatch.value.totalCost;
    var b0 := prevRateMatch.value.totalBase;
    var prevAmt, currAmt := prevMatch.value.amt, row.amt;
    var g := grp(row.product);
    var rateVar := (r1 - r0) * q1 / Unit;
    var qtyVar := r0 * (q1 - q0) / Unit;
    var rateCostEffect := if b0 != 0.0 then (c1 - c0) * q1 / b0 else 0.0;
    var rateBaseEffect := rateVar - rateCostEffect;
    var base := VarIdBase(yyyymm, row.product, row.proc, row.ce);
    assert rateVar == RateEffect(r1, r0, q1) && qtyVar == QtyEffect(r0, q1, q0);
    assert rateCostEffect == CostEffect(c1, c0, q1, b0);
    block := [MakeVariance(base + "_RV", yyyymm, row.product, g, row.proc, row.ce, RateVar, rateVar, prevAmt, currAmt),
              MakeVariance(base + "_QV", yyyymm, row.product, g, row.proc, row.ce, QtyVar, qtyVar, prevAmt, currAmt),
              MakeVariance(base + "_RC", yyyymm, row.product, g, row.proc, row.ce, RateCost, rateCostEffect, prevAmt, currAmt),
              MakeVariance(base + "_RB", yyyymm, row.product, g, row.proc, row.ce, RateBase, rateBaseEffect, prevAmt, currAmt)];
  }

  /** `_calc_fe_allocation_variance`: walks the current rows and appends each one's records. */
  method CalcFeAllocation(yyyymm: string, prevMonth: string, rates: seq<RateRow>, alloc: seq<AllocRow>,
                          grp: string -> string) returns (variances: seq<Variance>)
    ensures variances == FeVariances(yyyymm, prevMonth, rates, alloc, grp)
  {
    if rates == [] || alloc == [] {
      return [];
    }
    variances := [];
    var currRates := InMonth(rates, RateMonth, yyyymm);
    var prevRates := InMonth(rates, RateMonth, prevMonth);
    var currAlloc := InMonth(alloc, AllocMonth, yyyymm);
    var prevAlloc := InMonth(alloc, AllocMonth, prevMonth);
    for i := 0 to |currAlloc|
      invariant variances == FeRows(yyyymm, currAlloc[..i], prevAlloc, currRates, prevRates, grp)
    {
      FeRowsSnoc(yyyymm, currAlloc, i, prevAlloc, currRates, prevRates, grp);
      var block := FeRowRecords(yyyymm, currAlloc[i], prevAlloc, currRates, prevRates, grp);
      variances := variances + block;
    }
    assert currAlloc[..|currAlloc|] == currAlloc;
  }

  /** Without rates no row finds both rates, so the early return changes nothing. */
  lemma {:induction false} FeRowsNoRates(yyyymm: string, rows: seq<AllocRow>, prevAlloc: seq<AllocRow>,
                                         prevRates: seq<RateRow>, grp: string -> string)
    ensures FeRows(yyyymm, rows, prevAlloc, [], prevRates, grp) == []
  {
    if rows != [] {
      FeRowsNoRates(yyyymm, rows[..|rows| - 1], prevAlloc, prevRates, grp);
    }
  }

  /** The records come in blocks of four: RATE_VAR, QTY_VAR, RATE_COST, RATE_BASE. */
  const FeTypes: seq<string> := [RateVar, QtyVar, RateCost, RateBase]

  lemma {:induction false} FeRowsBlocks(yyyymm: string, rows: seq<AllocRow>, prevAlloc: seq<AllocRow>,
                                        currRates: seq<RateRow>, prevRates: seq<RateRow>, grp: string -> string)
    ensures var r := FeRows(yyyymm, rows, prevAlloc, currRates, prevRates, grp);
      |r| % 4 == 0
      && (forall i :: 0 <= i < |r| ==> r[i].varType == FeTypes[i % 4])
      && (forall k :: 0 <= k < |r| / 4 ==> r[4 * k + 2].varAmt + r[4 * k + 3].varAmt == r[4 * k].varAmt)
  {
    if rows != [] {
      var a := FeRows(yyyymm, rows[..|rows| - 1], prevAlloc, currRates, prevRates, grp);
      var b := FeRow(yyyymm, rows[|rows| - 1], prevAlloc, currRates, prevRates, grp);
      FeRowsBlocks(yyyymm, rows[..|rows| - 1], prevAlloc, currRates, prevRates, grp);
      if |b| == 4 {
        FeRowDecomposition(yyyymm, rows[|rows| - 1], prevAlloc, currRates, prevRates, grp);
      }
      BlocksAppend(a, b);
    }
  }

  lemma BlocksAppend(a: seq<Variance>, b: seq<Variance>)
    requires |a| % 4 == 0 && (|b| == 0 || |b| == 4)
    requires forall i :: 0 <= i < |a| ==> a[i].varType == FeTypes[i % 4]
    requires forall k :: 0 <= k < |a| / 4 ==> a[4 * k + 2].varAmt + a[4 * k + 3].varAmt == a[4 * k].varAmt
    requires |b| == 4 ==> (b[0].varType == RateVar && b[1].varType == QtyVar && b[2].varType == RateCost
                           && b[3].varType == RateBase && b[2].varAmt + b[3].varAmt == b[0].varAmt)
    ensures var r := a + b;
      |r| % 4 == 0
      && (forall i :: 0 <= i < |r| ==> r[i].varType == FeTypes[i % 4])
      && (forall k :: 0 <= k < |r| / 4 ==> r[4 * k + 2].varAmt + r[4 * k + 3].varAmt == r[4 * k].varAmt)
  {
    var r := a + b;
    forall i | |a| <= i < |r|
      ensures r[i].varType == FeTypes[i % 4]
    {
      assert i % 4 == i - |a|;
    }
    forall k | |a| / 4 <= k < |r| / 4
      ensures r[4 * k + 2].varAmt + r[4 * k + 3].varAmt == r[4 * k].varAmt
    {
      assert 4 * k == |a|;
    }
  }

  // -----------------------------------------------------------------
  // Back-end conversion variance
  // -----------------------------------------------------------------

  /** The records of one current-month conversion row: rate and quantity only. */
  function ConvRow(yyyymm: string, row: AllocRow, prevAlloc: seq<AllocRow>, currRates: seq<RateRow>,
                   prevRates: seq<RateRow>, grp: string -> string): (r: seq<Variance>)
    ensures |r| == 0 || |r| == 2
    ensures |r| == 2 <==>
      FirstAlloc(prevAlloc, row.product, row.proc, row.ce).Some?
      && FirstRate(currRates, row.proc, row.ce).Some? && FirstRate(prevRates, row.proc, row.ce).Some?
  {
    match FirstAlloc(prevAlloc, row.product, row.proc, row.ce)
    case None => []
    case Some(p) =>
      match FirstRate(currRates, row.proc, row.ce)
      case None => []
      case Some(r1) =>
        match FirstRate(prevRates, row.proc, row.ce)
        case None => []
        case Some(r0) =>
          var base := VarIdBase(yyyymm, row.product, row.proc, row.ce);
          var g := grp(row.product);
          [MakeVariance(base + "_RV", yyyymm, row.product, g, row.proc, row.ce, RateVar,
                        RateEffect(r1.allocRate, r0.allocRate, row.qty), p.amt, row.amt),
           MakeVariance(base + "_QV", yyyymm, row.product, g, row.proc, row.ce, QtyVar,
                        QtyEffect(r0.allocRate, row.qty, p.qty), p.amt, row.amt)]
  }

  /** The two records of a matched conversion row: ids, types, and rate plus quantity effect is the whole change. */
  lemma ConvRowDecomposition(yyyymm: string, row: AllocRow, prevAlloc: seq<AllocRow>, currRates: seq<RateRow>,
                             prevRates: seq<RateRow>, grp: string -> string)
    requires FirstAlloc(prevAlloc, row.product, row.proc, row.ce).Some?
    requires FirstRate(currRates, row.proc, row.ce).Some? && FirstRate(prevRates, row.proc, row.ce).Some?
    ensures var r := ConvRow(yyyymm, row, prevAlloc, currRates, prevRates, grp);
      var p := FirstAlloc(prevAlloc, row.product, row.proc, row.ce).value;
      var r1 := FirstRate(currRates, row.proc, row.ce).value;
      var r0 := FirstRate(prevRates, row.proc, row.ce).value;
      var base := VarIdBase(yyyymm, row.product, row.proc, row.ce);
      r[0].varId == base + "_RV" && r[1].varId == base + "_QV"
      && r[0].varType == RateVar && r[1].varType == QtyVar
      && r[0].varAmt + r[1].varAmt == (r1.allocRate * row.qty - r0.allocRate * p.qty) / Unit
  {
    var p := FirstAlloc(prevAlloc, row.product, row.proc, row.ce).value;
    var r1 := FirstRate(currRates, row.proc, row.ce).value;
    var r0 := FirstRate(prevRates, row.proc, row.ce).value;
    RateQtySplit(r1.allocRate, r0.allocRate, row.qty, p.qty);
  }

  function ConvRows(yyyymm: string, rows: seq<AllocRow>, prevAlloc: seq<AllocRow>, currRates: seq<RateRow>,
                    prevRates: seq<RateRow>, grp: string -> string): seq<Variance>
  {
    if rows == [] then []
    else ConvRows(yyyymm, rows[..|rows| - 1], prevAlloc, currRates, prevRates, grp)
         + ConvRow(yyyymm, rows[|rows| - 1], prevAlloc, currRates, prevRates, grp)
  }

  function ConvVariances(yyyymm: string, prevMonth: string, rates: seq<RateRow>, alloc: seq<AllocRow>,
                         grp: string -> string): seq<Variance>
  {
    if rates == [] || alloc == [] then []
    else ConvRows(yyyymm, InMonth(alloc, AllocMonth, yyyymm), InMonth(alloc, AllocMonth, prevMonth),
                  InMonth(rates, RateMonth, yyyymm), InMonth(rates, RateMonth, prevMonth), grp)
  }

  /** One current-month row of the conversion walk: its two records, or none when a match is missing. */
  method ConvRowRecords(yyyymm: string, row: AllocRow, prevAlloc: seq<AllocRow>, currRates: seq<RateRow>,
                        prevRates: seq<RateRow>, grp: string -> string) returns (block: seq<Variance>)
    ensures block == ConvRow(yyyymm, row, prevAlloc, currRates, prevRates, grp)
  {
    block := [];
    var prevMatch := FirstAlloc(prevAlloc, row.product, row.proc, row.ce);
    if prevMatch.None? {
      return;
    }
    var q1 := row.qty;
    var q0 := prevMatch.value.qty;
    var currRateMatch := FirstRate(currRates, row.proc, row.ce);
    var prevRateMatch := FirstRate(prevRates, row.proc, row.ce);
    if currRateMatch.None? || prevRateMatch.None? {
      return;
    }
    var r1, r0 := currRateMatch.value.allocRate, prevRateMatch.value.allocRate;
    var prevAmt, currAmt := prevMatch.value.amt, row.amt;
    var g := grp(row.product);
    var rateVar := (r1 - r0) * q1 / Unit;
    var qtyVar := r0 * (q1 - q0) / Unit;
    var base := VarIdBase(yyyymm, row.product, row.proc, row.ce);
    assert rateVar == RateEffect(r1, r0, q1) && qtyVar == QtyEffect(r0, q1, q0);
    block := [MakeVariance(base + "_RV", yyyymm, row.product, g, row.proc, row.ce, RateVar, rateVar, prevAmt, currAmt),
              MakeVariance(base + "_QV", yyyymm, row.product, g, row.proc, row.ce, QtyVar, qtyVar, prevAmt, currAmt)];
  }

  lemma ConvRowsSnoc(yyyymm: string, rows: seq<AllocRow>, i: nat, prevAlloc: seq<AllocRow>,
                     currRates: seq<RateRow>, prevRates: seq<RateRow>, grp: string -> string)
    requires i < |rows|
    ensures ConvRows(yyyymm, rows[..i + 1], prevAlloc, currRates, prevRates, grp)
         == ConvRows(yyyymm, rows[..i], prevAlloc, currRates, prevRates, grp)
          + ConvRow(yyyymm, rows[i], prevAlloc, currRates, prevRates, grp)
  {
    assert rows[..i + 1][..i] == rows[..i];
  }

  /** `_calc_be_conversion_variance`: the front-end walk without the rate split. */
  method CalcBeConversion(yyyymm: string, prevMonth: string, rates: seq<RateRow>, alloc: seq<AllocRow>,
                          grp: string -> string) returns (variances: seq<Variance>)
    ensures variances == ConvVariances(yyyymm, prevMonth, rates, alloc, grp)
  {
    if rates == [] || alloc == [] {
      return [];
    }
    variances := [];
    var currRates := InMonth(rates, RateMonth, yyyymm);
    var prevRates := InMonth(rates, RateMonth, prevMonth);
    var currAlloc := InMonth(alloc, AllocMonth, yyyymm);
    var prevAlloc := InMonth(alloc, AllocMonth, prevMonth);
    for i := 0 to |currAlloc|
      invariant variances == ConvRows(yyyymm, currAlloc[..i], prevAlloc, currRates, prevRates, grp)
    {
      ConvRowsSnoc(yyyymm, currAlloc, i, prevAlloc, currRates, prevRates, grp);
      var block := ConvRowRecords(yyyymm, currAlloc[i], prevAlloc, currRates, prevRates, grp);
      variances := variances + block;
    }
    assert currAlloc[..|currAlloc|] == currAlloc;
  }

  // -----------------------------------------------------------------
  // Back-end material variance
  // -----------------------------------------------------------------

  function BomOf(rows: seq<BomRow>, product: string): (r: seq<BomRow>)
    ensures forall x :: x in r <==> x in rows && x.product == product
  {
    if rows == [] then []
    else
      var last := rows[|rows| - 1];
      assert forall x :: x in rows <==> x in rows[..|rows| - 1] || x == last;
      BomOf(rows[..|rows| - 1], product) + (if last.product == product then [last] else [])
  }

  function FirstMat(rows: seq<BomRow>, mat: string): (r: Option<BomRow>)
    ensures r.Some? ==> r.value in rows && r.value.mat == mat
    ensures r.None? <==> forall x :: x in rows ==> x.mat != mat
  {
    if rows == [] then None
    else if rows[0].mat == mat then Some(rows[0])
    else FirstMat(rows[1..], mat)
  }

  function ProductsOf(rows: seq<BomRow>): (r: seq<string>)
    ensures |r| == |rows| && forall i :: 0 <= i < |rows| ==> r[i] == rows[i].product
  {
    if rows == [] then [] else ProductsOf(rows[..|rows| - 1]) + [rows[|rows| - 1].product]
  }

  /** pandas `unique()`: each value once, in order of first appearance. */
  function UniqueInOrder(s: seq<string>): (r: seq<string>)
    ensures forall x :: x in r <==> x in s
    ensures forall i, j :: 0 <= i < j < |r| ==> r[i] != r[j]
  {
    if s == [] then []
    else
      var p := UniqueInOrder(s[..|s| - 1]);
      var x := s[|s| - 1];
      assert forall y :: y in s <==> y in s[..|s| - 1] || y == x;
      if x in p then p else p + [x]
  }

  /** Σ (P₁ − P₀) · Q₁ / 10000 over current items that have a previous match. */
  function PriceSum(curr: seq<BomRow>, prev: seq<BomRow>): real
  {
    if curr == [] then 0.0
    else
      var it := curr[|curr| - 1];
      PriceSum(curr[..|curr| - 1], prev)
      + match FirstMat(prev, it.mat) case Some(p) => (it.price - p.price) * it.qty / Unit case None => 0.0
  }

  /** Σ P₀ · (Q₁ − Q₀) / 10000 over current items that have a previous match. */
  function UsageSum(curr: seq<BomRow>, prev: seq<BomRow>): real
  {
    if curr == [] then 0.0
    else
      var it := curr[|curr| - 1];
      UsageSum(curr[..|curr| - 1], prev)
      + match FirstMat(prev, it.mat) case Some(p) => p.price * (it.qty - p.qty) / Unit case None => 0.0
  }

  /** Reference: Σ (P₁Q₁ − P₀Q₀) / 10000 over current items that have a previous match. */
  function MatchedCostChange(curr: seq<BomRow>, prev: seq<BomRow>): real
  {
    if curr == [] then 0.0
    else
      var it := curr[|curr| - 1];
      MatchedCostChange(curr[..|curr| - 1], prev)
      + match FirstMat(prev, it.mat) case Some(p) => (it.price * it.qty - p.price * p.qty) / Unit case None => 0.0
  }

  /** Price and usage effects add up to the change in cost of the matched materials. */
  lemma {:induction false} PriceUsageSplit(curr: seq<BomRow>, prev: seq<BomRow>)
    ensures PriceSum(curr, prev) + UsageSum(curr, prev) == MatchedCostChange(curr, prev)
  {
    if curr != [] {
      PriceUsageSplit(curr[..|curr| - 1], prev);
      var it := curr[|curr| - 1];
      match FirstMat(prev, it.mat)
      case Some(p) =>
        RateQtySplit(it.price, p.price, it.qty, p.qty);
      case None =>
    }
  }

  function MatAmtSum(rows: seq<BomRow>): real
  {
    if rows == [] then 0.0 else MatAmtSum(rows[..|rows| - 1]) + rows[|rows| - 1].matAmt
  }

  /** The two records of one product, or none when it has no previous-month items. */
  function MaterialRow(yyyymm: string, product: string, currBom: seq<BomRow>, prevBom: seq<BomRow>,
                       grp: string -> string): (r: seq<Variance>)
    ensures |r| == 0 <==> BomOf(prevBom, product) == []
    ensures |r| == 0 || |r| == 2
    ensures |r| == 2 ==>
      var ci, pi := BomOf(currBom, product), BomOf(prevBom, product);
      var base := "V" + yyyymm + "_" + product + "_BE01_MAT";
      r[0].varId == base + "_PV" && r[1].varId == base + "_UV"
      && r[0].varType == PriceVar && r[1].varType == UsageVar
      && r[0].proc == "BE_01" && r[0].ce == "CE_MAT" && r[1].proc == "BE_01" && r[1].ce == "CE_MAT"
      && r[0].varAmt + r[1].varAmt == MatchedCostChange(ci, pi)
      && r[0].prevAmt == MatAmtSum(pi) && r[0].currAmt == MatAmtSum(ci)
  {
    var ci, pi := BomOf(currBom, product), BomOf(prevBom, product);
    if pi == [] then []
    else
      var base := "V" + yyyymm + "_" + product + "_BE01_MAT";
      var g := grp(product);
      PriceUsageSplit(ci, pi);
      [MakeVariance(base + "_PV", yyyymm, product, g, "BE_01", "CE_MAT", PriceVar, PriceSum(ci, pi), MatAmtSum(pi), MatAmtSum(ci)),
       MakeVariance(base + "_UV", yyyymm, product, g, "BE_01", "CE_MAT", UsageVar, UsageSum(ci, pi), MatAmtSum(pi), MatAmtSum(ci))]
  }

  function MaterialRows(yyyymm: string, products: seq<string>, currBom: seq<BomRow>, prevBom: seq<BomRow>,
                        grp: string -> string): seq<Variance>
  {
    if products == [] then []
    else MaterialRows(yyyymm, products[..|products| - 1], currBom, prevBom, grp)
         + MaterialRow(yyyymm, products[|products| - 1], currBom, prevBom, grp)
  }

  lemma MaterialRowsSnoc(yyyymm: string, products: seq<string>, i: nat, currBom: seq<BomRow>,
                         prevBom: seq<BomRow>, grp: string -> string)
    requires i < |products|
    ensures MaterialRows(yyyymm, products[..i + 1], currBom, prevBom, grp)
         == MaterialRows(yyyymm, products[..i], currBom, prevBom, grp)
          + MaterialRow(yyyymm, products[i], currBom, prevBom, grp)
  {
    assert products[..i + 1][..i] == products[..i];
  }

  function MaterialVariances(yyyymm: string, prevMonth: string, bom: seq<BomRow>, grp: string -> string): seq<Variance>
  {
    if bom == [] then []
    else
      var currBom := InMonth(bom, BomMonth, yyyymm);
      MaterialRows(yyyymm, UniqueInOrder(ProductsOf(currBom)), currBom, InMonth(bom, BomMonth, prevMonth), grp)
  }

  /** The inner loop over one product's current items, accumulating the two totals. */
  method MaterialTotals(currItems: seq<BomRow>, prevItems: seq<BomRow>) returns (totalPrice: real, totalUsage: real)
    ensures totalPrice == PriceSum(currItems, prevItems) && totalUsage == UsageSum(currItems, prevItems)
  {
    totalPrice, totalUsage := 0.0, 0.0;
    for j := 0 to |currItems|
      invariant totalPrice == PriceSum(currItems[..j], prevItems)
      invariant totalUsage == UsageSum(currItems[..j], prevItems)
    {
      assert currItems[..j + 1][..j] == currItems[..j];
      var item := currItems[j];
      var prevMatch := FirstMat(prevItems, item.mat);
      if prevMatch.None? {
        continue;
      }
      var p1, p0 := item.price, prevMatch.value.price;
      var q1, q0 := item.qty, prevMatch.value.qty;
      totalPrice := totalPrice + (p1 - p0) * q1 / Unit;
      totalUsage := totalUsage + p0 * (q1 - q0) / Unit;
    }
    assert currItems[..|currItems|] == currItems;
  }

  /** One product of the material walk: its price and usage records, or none without previous items. */
  method MaterialProductRecords(yyyymm: string, prod: string, currBom: seq<BomRow>, prevBom: seq<BomRow>,
                                grp: string -> string) returns (block: seq<Variance>)
    ensures block == MaterialRow(yyyymm, prod, currBom, prevBom, grp)
  {
    block := [];
    var currItems := BomOf(currBom, prod);
    var prevItems := BomOf(prevBom, prod);
    if prevItems == [] {
      return;
    }
    var totalPriceVar, totalUsageVar := MaterialTotals(currItems, prevItems);
    var prevTotal := MatAmtSum(prevItems);
    var currTotal := MatAmtSum(currItems);
    var g := grp(prod);
    var base := "V" + yyyymm + "_" + prod + "_BE01_MAT";
    block := [MakeVariance(base + "_PV", yyyymm, prod, g, "BE_01", "CE_MAT", PriceVar, totalPriceVar, prevTotal, currTotal),
              MakeVariance(base + "_UV", yyyymm, prod, g, "BE_01", "CE_MAT", UsageVar, totalUsageVar, prevTotal, currTotal)];
  }

  /** `_calc_be_material_variance`: per product (first-appearance order) the price and usage records. */
  method CalcBeMaterial(yyyymm: string, prevMonth: string, bom: seq<BomRow>, grp: string -> string)
    returns (variances: seq<Variance>)
    ensures variances == MaterialVariances(yyyymm, prevMonth, bom, grp)
  {
    if bom == [] {
      return [];
    }
    variances := [];
    var currBom := InMonth(bom, BomMonth, yyyymm);
    var prevBom := InMonth(bom, BomMonth, prevMonth);
    var products := UniqueInOrder(ProductsOf(currBom));
    for i := 0 to |products|
      invariant variances == MaterialRows(yyyymm, products[..i], currBom, prevBom, grp)
    {
      MaterialRowsSnoc(yyyymm, products, i, currBom, prevBom, grp);
      var block := MaterialProductRecords(yyyymm, products[i], currBom, prevBom, grp);
      variances := variances + block;
    }
    assert products[..|products|] == products;
  }

  // -----------------------------------------------------------------
  // The whole run
  // -----------------------------------------------------------------

  /**
   * `calculate_all`: the previous month of the "YYYYMM" parameter, then the
   * front-end, back-end material and back-end conversion records, in that order.
   */
  method CalculateAll(yyyymm: string, feRates: seq<RateRow>, feAlloc: seq<AllocRow>, bom: seq<BomRow>,
                      beRates: seq<RateRow>, beAlloc: seq<AllocRow>, grp: string -> string)
    returns (results: seq<Variance>)
    requires Period.IsYyyymm(yyyymm)
    ensures var prev := Period.PrevMonth(yyyymm);
      results == FeVariances(yyyymm, prev, feRates, feAlloc, grp)
               + MaterialVariances(yyyymm, prev, bom, grp)
               + ConvVariances(yyyymm, prev, beRates, beAlloc, grp)
  {
    var prevMonth := Period.PrevMonth(yyyymm);
    var feVariances := CalcFeAllocation(yyyymm, prevMonth, feRates, feAlloc, grp);
    results := feVariances;
    var beMatVariances := CalcBeMaterial(yyyymm, prevMonth, bom, grp);
    results := results + beMatVariances;
    var beConvVariances := CalcBeConversion(yyyymm, prevMonth, beRates, beAlloc, grp);
    results := results + beConvVariances;
  }
}
