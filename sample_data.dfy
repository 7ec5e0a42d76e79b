// The sample-data generator's arithmetic: allocation rates, allocated and
// material amounts, the normalisation of product shares into quantities, the
// bill-of-materials series, and the variance records it writes for 202501
// against 202412. Values are exact reals; the generator's rounding to 1, 2
// or 4 decimals is not modelled.
module SampleData {
  import opened Common
  import Period
  import VarianceCalc

  /** The six months of the sample data, oldest first. */
  const Months: seq<string> := ["202408", "202409", "202410", "202411", "202412", "202501"]
  const MonthCount: nat := 6
  /** The variance records compare month index 5 (202501) with month index 4 (202412). */
  const CurrIndex: nat := 5
  const PrevIndex: nat := 4

  /** The hard-coded indices name a month and its predecessor. */
  lemma VarianceMonthsAdjacent()
    ensures |Months| == MonthCount && Months[CurrIndex] == "202501" && Months[PrevIndex] == "202412"
    ensures Period.IsYyyymm(Months[CurrIndex]) && Period.PrevMonth(Months[CurrIndex]) == Months[PrevIndex]
  {
    var s := Months[CurrIndex];
    assert s[..4] == "2025" && s[4..6] == "01";
    assert "01"[..1] == "0";
    assert Period.ParseNat("01") == 1;
    ParseYear();
    PrintYear();
  }

  lemma ParseYear()
    ensures Period.ParseNat("2025") == 2025
  {
    assert "2"[..0] == [];
    assert Period.ParseNat("2") == 2;
    assert "20"[..1] == "2";
    assert Period.ParseNat("20") == 20;
    assert "202"[..2] == "20";
    assert Period.ParseNat("202") == 202;
    assert "2025"[..3] == "202";
  }

  lemma PrintYear()
    ensures Period.IntToString(2024) == "2024"
  {
    assert Period.NatToString(2) == "2";
    assert Period.NatToString(20) == "20";
    assert Period.NatToString(202) == "202";
  }

  // -----------------------------------------------------------------
  // The three consistency formulas
  // -----------------------------------------------------------------

  /** Allocation rate = total cost × 10000 / total allocation base. */
  function Rate(tc: real, tb: real): (r: real)
    requires tb != 0.0
    ensures r * tb == tc * 10000.0
    ensures tc >= 0.0 && tb > 0.0 ==> r >= 0.0
  {
    tc * 10000.0 / tb
  }

  /** Allocated amount = quantity × rate / 10000; material cost = standard usage × unit price / 10000. */
  function Amount(qty: real, rate: real): (r: real)
    ensures r * 10000.0 == qty * rate
  {
    qty * rate / 10000.0
  }

  function Amounts(qs: seq<real>, rate: real): (r: seq<real>)
    ensures |r| == |qs| && forall i :: 0 <= i < |qs| ==> r[i] == Amount(qs[i], rate)
  {
    seq(|qs|, i requires 0 <= i < |qs| => Amount(qs[i], rate))
  }

  lemma {:induction false} AmountsSum(qs: seq<real>, rate: real)
    ensures Sum(Amounts(qs, rate)) == Sum(qs) * rate / 10000.0
  {
    if qs != [] {
      assert Amounts(qs, rate)[1..] == Amounts(qs[1..], rate);
      AmountsSum(qs[1..], rate);
      assert Sum(Amounts(qs, rate)) == qs[0] * rate / 10000.0 + Sum(qs[1..]) * rate / 10000.0;
      assert qs[0] * rate + Sum(qs[1..]) * rate == (qs[0] + Sum(qs[1..])) * rate;
    }
  }

  /** Allocating at Rate(tc, tb) over quantities that add up to tb allocates exactly tc. */
  lemma AllocationReproducesCost(qs: seq<real>, tc: real, tb: real)
    requires tb != 0.0 && Sum(qs) == tb
    ensures Sum(Amounts(qs, Rate(tc, tb))) == tc
  {
    var r := Rate(tc, tb);
    AmountsSum(qs, r);
    assert tb * r == tc * 10000.0;
  }

  // -----------------------------------------------------------------
  // Quantities: base share plus monthly growth, normalised to the base
  // -----------------------------------------------------------------

  const MinShare: real := 0.1

  /** max(base + growth, 0.1) */
  function RawShare(base: real, growth: real): (r: real)
    ensures r >= MinShare
    ensures r >= base + growth && (r == base + growth || r == MinShare)
  {
    Max(base + growth, MinShare)
  }

  /** Shares per product (base percentage) and six monthly growth adjustments per product. */
  predicate WellFormedShares(base: seq<real>, growth: seq<seq<real>>)
  {
    |growth| == |base| && forall p :: 0 <= p < |growth| ==> |growth[p]| == MonthCount
  }

  /** Month i's raw shares, one per product. */
  function RawRow(base: seq<real>, growth: seq<seq<real>>, i: nat): (r: seq<real>)
    requires WellFormedShares(base, growth) && i < MonthCount
    ensures |r| == |base| && forall p :: 0 <= p < |r| ==> r[p] >= MinShare
  {
    seq(|base|, p requires 0 <= p < |base| => RawShare(base[p], growth[p][i]))
  }

  lemma {:induction false} SumAtLeast(s: seq<real>)
    requires forall p :: 0 <= p < |s| ==> s[p] >= MinShare
    ensures Sum(s) >= MinShare * (|s| as real)
  {
    if s != [] {
      SumAtLeast(s[1..]);
    }
  }

  /** s[p] / d × c for every p. */
  function Scaled(s: seq<real>, d: real, c: real): (r: seq<real>)
    requires d != 0.0
    ensures |r| == |s|
  {
    seq(|s|, p requires 0 <= p < |s| => s[p] / d * c)
  }

  lemma {:induction false} SumScaled(s: seq<real>, d: real, c: real)
    requires d != 0.0
    ensures Sum(Scaled(s, d, c)) == Sum(s) / d * c
  {
    if s != [] {
      ScaledTail(s, d, c);
      SumScaled(s[1..], d, c);
      var t := Scaled(s, d, c);
      ScaleStep(Sum(t), t[0], Sum(t[1..]), s[0], Sum(s[1..]), Sum(s), d, c);
    }
  }

  lemma ScaledTail(s: seq<real>, d: real, c: real)
    requires d != 0.0 && s != []
    ensures Scaled(s, d, c)[1..] == Scaled(s[1..], d, c)
    ensures Scaled(s, d, c)[0] == s[0] / d * c
  {
    var t, u := Scaled(s, d, c), Scaled(s[1..], d, c);
    forall p | 0 <= p < |s| - 1
      ensures t[1..][p] == u[p]
    {
      assert t[1..][p] == t[p + 1] == s[p + 1] / d * c;
    }
  }

  /** One step of the sum: head and tail scaled separately add up to the scaled sum. */
  lemma ScaleStep(total: real, head: real, tail: real, x: real, rest: real, sum: real, d: real, c: real)
    requires d != 0.0 && total == head + tail && sum == x + rest
    requires head == x / d * c && tail == rest / d * c
    ensures total == sum / d * c
  {
    assert x / d + rest / d == (x + rest) / d;
  }

  /** The month's quantities: raw[p] / Σraw × tb (nothing when there are no products). */
  function MonthQty(base: seq<real>, growth: seq<seq<real>>, tb: real, i: nat): (r: seq<real>)
    requires WellFormedShares(base, growth) && i < MonthCount
    ensures |r| == |base|
  {
    Normalise(RawRow(base, growth, i), tb)
  }

  /** Each share divided by the total and scaled to tb (nothing when there are no shares). */
  function Normalise(raw: seq<real>, tb: real): (r: seq<real>)
    requires forall p :: 0 <= p < |raw| ==> raw[p] >= MinShare
    ensures |r| == |raw|
  {
    if raw == [] then [] else
      SumAtLeast(raw);
      Scaled(raw, Sum(raw), tb)
  }

  lemma NormaliseSum(raw: seq<real>, tb: real)
    requires forall p :: 0 <= p < |raw| ==> raw[p] >= MinShare
    requires |raw| > 0
    ensures Sum(Normalise(raw, tb)) == tb
  {
    SumAtLeast(raw);
    var d := Sum(raw);
    CountTimesPositive(|raw|);
    assert Normalise(raw, tb) == Scaled(raw, d, tb);
    SumScaled(raw, d, tb);
    SelfScale(d, tb);
  }

  lemma CountTimesPositive(n: nat)
    requires n > 0
    ensures MinShare * (n as real) > 0.0
  {
  }

  lemma SelfScale(d: real, c: real)
    requires d != 0.0
    ensures d / d * c == c
  {
  }

  /** The quantities of one month add up to that month's allocation base. */
  lemma MonthQtySum(base: seq<real>, growth: seq<seq<real>>, tb: real, i: nat)
    requires WellFormedShares(base, growth) && i < MonthCount && |base| > 0
    ensures Sum(MonthQty(base, growth, tb, i)) == tb
  {
    NormaliseSum(RawRow(base, growth, i), tb);
  }

  /** A process's quantity table: per product, six monthly quantities. */
  function QtyTable(base: seq<real>, growth: seq<seq<real>>, tbs: seq<real>): (r: seq<seq<real>>)
    requires WellFormedShares(base, growth) && |tbs| == MonthCount
    ensures |r| == |base| && forall p :: 0 <= p < |r| ==> |r[p]| == MonthCount
  {
    seq(|base|, p requires 0 <= p < |base| =>
      seq(MonthCount, i requires 0 <= i < MonthCount => MonthQty(base, growth, tbs[i], i)[p]))
  }

  /** Column i of the table sums to the allocation base tbs[i]. */
  lemma QtyTableColumnSum(base: seq<real>, growth: seq<seq<real>>, tbs: seq<real>, i: nat)
    requires WellFormedShares(base, growth) && |tbs| == MonthCount && i < MonthCount && |base| > 0
    ensures var t := QtyTable(base, growth, tbs);
      Sum(seq(|t|, p requires 0 <= p < |t| => t[p][i])) == tbs[i]
  {
    var t := QtyTable(base, growth, tbs);
    assert seq(|t|, p requires 0 <= p < |t| => t[p][i]) == MonthQty(base, growth, tbs[i], i);
    MonthQtySum(base, growth, tbs[i], i);
  }

  /** The first n months of product p are filled in. */
  ghost predicate Filled(qty: seq<seq<real>>, t: seq<seq<real>>, p: nat, n: nat)
    requires p < |qty| && p < |t| && n <= |t[p]|
  {
    qty[p] == t[p][..n]
  }

  /** Month i's raw shares, product by product. */
  method RawShares(base: seq<real>, growth: seq<seq<real>>, i: nat) returns (raw: seq<real>)
    requires WellFormedShares(base, growth) && i < MonthCount
    ensures raw == RawRow(base, growth, i)
  {
    raw := [];
    for p := 0 to |base|
      invariant raw == RawRow(base, growth, i)[..p]
    {
      raw := raw + [Max(base[p] + growth[p][i], MinShare)];
    }
  }

  /** A product's quantity: its raw share of the total, times the allocation base. */
  function Portion(share: real, totalRaw: real, tb: real): real
    requires totalRaw != 0.0
  {
    share / totalRaw * tb
  }

  /** The product loop of one month: appends raw[p] / Σraw × tb to product p's list. */
  method AppendMonth(qty: seq<seq<real>>, raw: seq<real>, totalRaw: real, tb: real) returns (r: seq<seq<real>>)
    requires |raw| == |qty| && (|qty| > 0 ==> totalRaw != 0.0)
    ensures |r| == |qty|
    ensures forall p :: 0 <= p < |qty| ==> r[p] == qty[p] + [Portion(raw[p], totalRaw, tb)]
  {
    r := qty;
    for p := 0 to |qty|
      invariant |r| == |qty|
      invariant forall q :: 0 <= q < p ==> r[q] == qty[q] + [Portion(raw[q], totalRaw, tb)]
      invariant forall q :: p <= q < |qty| ==> r[q] == qty[q]
    {
      var x := Portion(raw[p], totalRaw, tb);
      r := r[p := r[p] + [x]];
    }
  }

  /** One month of the table, read through the shares. */
  lemma QtyTableAt(base: seq<real>, growth: seq<seq<real>>, tbs: seq<real>, i: nat, p: nat)
    requires WellFormedShares(base, growth) && |tbs| == MonthCount && i < MonthCount && p < |base|
    ensures Sum(RawRow(base, growth, i)) != 0.0
    ensures QtyTable(base, growth, tbs)[p][i] == Portion(RawRow(base, growth, i)[p], Sum(RawRow(base, growth, i)), tbs[i])
  {
    SumAtLeast(RawRow(base, growth, i));
  }

  /** After month i's column is appended, the first i + 1 months of every product are filled in. */
  lemma FillStep(base: seq<real>, growth: seq<seq<real>>, tbs: seq<real>, i: nat, n: nat,
                 prev: seq<seq<real>>, qty: seq<seq<real>>, raw: seq<real>)
    requires WellFormedShares(base, growth) && |tbs| == MonthCount && i < MonthCount && n == i + 1
    requires raw == RawRow(base, growth, i) && |prev| == |base| && |qty| == |base|
    requires forall p :: 0 <= p < |base| ==> Filled(prev, QtyTable(base, growth, tbs), p, i)
    requires |base| > 0 ==> Sum(raw) != 0.0
    requires forall p :: 0 <= p < |base| ==> qty[p] == prev[p] + [Portion(raw[p], Sum(raw), tbs[i])]
    ensures forall p :: 0 <= p < |base| ==> Filled(qty, QtyTable(base, growth, tbs), p, n)
  {
    var t := QtyTable(base, growth, tbs);
    forall p | 0 <= p < |base|
      ensures Filled(qty, t, p, n)
    {
      assert Filled(prev, t, p, i);
      QtyTableAt(base, growth, tbs, i, p);
      assert t[p][..n] == t[p][..i] + [t[p][i]];
    }
  }

  /** `_compute_qty_def` for one process: month by month, every product's quantity is appended. */
  method ComputeProcessQty(base: seq<real>, growth: seq<seq<real>>, tbs: seq<real>) returns (qty: seq<seq<real>>)
    requires WellFormedShares(base, growth) && |tbs| == MonthCount
    ensures qty == QtyTable(base, growth, tbs)
  {
    ghost var t := QtyTable(base, growth, tbs);
    qty := seq(|base|, p => []);
    for i := 0 to MonthCount
      invariant |qty| == |base|
      invariant forall p :: 0 <= p < |base| ==> Filled(qty, t, p, i)
    {
      var tb := tbs[i];
      var raw := RawShares(base, growth, i);
      var totalRaw := Sum(raw);
      SumAtLeast(raw);
      ghost var prev := qty;
      qty := AppendMonth(qty, raw, totalRaw, tb);
      FillStep(base, growth, tbs, i, i + 1, prev, qty, raw);
    }
    forall p | 0 <= p < |base|
      ensures qty[p] == t[p]
    {
      assert Filled(qty, t, p, MonthCount);
      assert t[p][..MonthCount] == t[p];
    }
  }

  /** A row of `RATE_DEF`: the base unit and six (total cost, total base) pairs. */
  datatype RateSeries = RateSeries(unit: string, months: seq<(real, real)>)

  type RateDef = map<(string, string), RateSeries>

  /** Every series has six months and a non-zero base in each. */
  predicate WellFormedRates(rateDef: RateDef)
  {
    forall k :: k in rateDef ==>
      |rateDef[k].months| == MonthCount && forall i :: 0 <= i < MonthCount ==> rateDef[k].months[i].1 != 0.0
  }

  /** A process with its cost elements, as in `PROC_CES`. */
  datatype ProcCes = ProcCes(proc: string, ces: seq<string>)

  /** A process's quantities, per product in product order. */
  datatype ProcQty = ProcQty(proc: string, byProduct: seq<(string, seq<real>)>)

  /** The allocation bases of a process: its first cost element's six totals. */
  predicate HasBase(rateDef: RateDef, pc: ProcCes)
  {
    |pc.ces| > 0 && (pc.proc, pc.ces[0]) in rateDef && |rateDef[(pc.proc, pc.ces[0])].months| == MonthCount
  }

  function Bases(rateDef: RateDef, pc: ProcCes): (r: seq<real>)
    requires HasBase(rateDef, pc)
    ensures |r| == MonthCount
  {
    var m := rateDef[(pc.proc, pc.ces[0])].months;
    seq(MonthCount, i requires 0 <= i < MonthCount => m[i].1)
  }

  function Zip(products: seq<string>, table: seq<seq<real>>): (r: seq<(string, seq<real>)>)
    requires |table| == |products|
    ensures |r| == |products| && forall p :: 0 <= p < |r| ==> r[p] == (products[p], table[p])
  {
    seq(|products|, p requires 0 <= p < |products| => (products[p], table[p]))
  }

  /** `_compute_qty_def`: for every process, the product quantity table over its allocation bases. */
  method ComputeQtyDef(procCes: seq<ProcCes>, rateDef: RateDef, products: seq<string>,
                       base: seq<real>, growth: seq<seq<real>>) returns (qtyDef: seq<ProcQty>)
    requires WellFormedShares(base, growth) && |products| == |base|
    requires forall k :: 0 <= k < |procCes| ==> HasBase(rateDef, procCes[k])
    ensures |qtyDef| == |procCes|
    ensures forall k :: 0 <= k < |qtyDef| ==>
      qtyDef[k].proc == procCes[k].proc && qtyDef[k].byProduct == Zip(products, QtyTable(base, growth, Bases(rateDef, procCes[k])))
  {
    qtyDef := [];
    for k := 0 to |procCes|
      invariant |qtyDef| == k
      invariant forall j :: 0 <= j < k ==>
        qtyDef[j].proc == procCes[j].proc && qtyDef[j].byProduct == Zip(products, QtyTable(base, growth, Bases(rateDef, procCes[j])))
    {
      var tbs := Bases(rateDef, procCes[k]);
      var table := ComputeProcessQty(base, growth, tbs);
      qtyDef := qtyDef + [ProcQty(procCes[k].proc, Zip(products, table))];
    }
  }

  /** Every product gets six quantities per process, and each month's quantities add up to that month's base. */
  lemma QtyDefShape(procCes: seq<ProcCes>, rateDef: RateDef, products: seq<string>,
                    base: seq<real>, growth: seq<seq<real>>, k: nat, i: nat)
    requires WellFormedShares(base, growth) && |products| == |base| && |base| > 0
    requires k < |procCes| && HasBase(rateDef, procCes[k]) && i < MonthCount
    ensures var row := Zip(products, QtyTable(base, growth, Bases(rateDef, procCes[k])));
      (forall p :: 0 <= p < |row| ==> |row[p].1| == MonthCount)
      && Sum(seq(|row|, p requires 0 <= p < |row| => row[p].1[i])) == rateDef[(procCes[k].proc, procCes[k].ces[0])].months[i].1
  {
    var tbs := Bases(rateDef, procCes[k]);
    var t := QtyTable(base, growth, tbs);
    var row := Zip(products, t);
    QtyTableColumnSum(base, growth, tbs, i);
    assert seq(|row|, p requires 0 <= p < |row| => row[p].1[i]) == seq(|t|, p requires 0 <= p < |t| => t[p][i]);
  }

  // -----------------------------------------------------------------
  // Bill of materials
  // -----------------------------------------------------------------

  /** One `BOM_DEF` entry: a product, a material, six (quantity, price) pairs. */
  datatype BomEntry = BomEntry(product: string, mat: string, series: seq<(real, real)>)

  /** Pairs month i's quantity with month i's price, for the six months. */
  function Series(qtyList: seq<real>, prices: seq<real>): (r: seq<(real, real)>)
    requires |qtyList| >= MonthCount && |prices| >= MonthCount
    ensures |r| == MonthCount && forall i :: 0 <= i < MonthCount ==> r[i].0 == qtyList[i] && r[i].1 == prices[i]
  {
    seq(MonthCount, i requires 0 <= i < MonthCount => (qtyList[i], prices[i]))
  }

  /** A product's materials with their usage series. */
  datatype ProductBom = ProductBom(product: string, mats: seq<(string, seq<real>)>)

  /** Every material of the product has a price series and both series cover the six months. */
  predicate WellFormedProduct(pb: ProductBom, prices: map<string, seq<real>>)
  {
    forall m :: 0 <= m < |pb.mats| ==>
      pb.mats[m].0 in prices && |prices[pb.mats[m].0]| >= MonthCount && |pb.mats[m].1| >= MonthCount
  }

  predicate WellFormedBom(bomQty: seq<ProductBom>, prices: map<string, seq<real>>)
  {
    forall j :: 0 <= j < |bomQty| ==> WellFormedProduct(bomQty[j], prices)
  }

  function ProductEntries(pb: ProductBom, n: nat, prices: map<string, seq<real>>): (r: seq<BomEntry>)
    requires n <= |pb.mats| && WellFormedProduct(pb, prices)
    ensures |r| == n
    ensures forall m :: 0 <= m < n ==>
      r[m].product == pb.product && r[m].mat == pb.mats[m].0 && r[m].series == Series(pb.mats[m].1, prices[pb.mats[m].0])
  {
    if n == 0 then []
    else
      ProductEntries(pb, n - 1, prices) + [BomEntry(pb.product, pb.mats[n - 1].0, Series(pb.mats[n - 1].1, prices[pb.mats[n - 1].0]))]
  }

  function BomEntries(bomQty: seq<ProductBom>, prices: map<string, seq<real>>): seq<BomEntry>
    requires WellFormedBom(bomQty, prices)
  {
    if bomQty == [] then []
    else
      var last := bomQty[|bomQty| - 1];
      assert WellFormedProduct(last, prices);
      BomEntries(bomQty[..|bomQty| - 1], prices) + ProductEntries(last, |last.mats|, prices)
  }

  /** Every `BOM_DEF` entry comes from a (product, material) of the usage table, with month-aligned pairs. */
  lemma {:induction false} BomEntriesFromTable(bomQty: seq<ProductBom>, prices: map<string, seq<real>>, e: BomEntry)
    requires WellFormedBom(bomQty, prices) && e in BomEntries(bomQty, prices)
    ensures exists j, m :: (0 <= j < |bomQty| && 0 <= m < |bomQty[j].mats|
                            && e.product == bomQty[j].product && e.mat == bomQty[j].mats[m].0
                            && e.series == Series(bomQty[j].mats[m].1, prices[e.mat]))
  {
    var j := |bomQty| - 1;
    var last := bomQty[j];
    assert WellFormedProduct(last, prices);
    var front := BomEntries(bomQty[..j], prices);
    var tail := ProductEntries(last, |last.mats|, prices);
    if e in front {
      BomEntriesFromTable(bomQty[..j], prices, e);
      var j', m' :| 0 <= j' < j && 0 <= m' < |bomQty[..j][j'].mats|
        && e.product == bomQty[..j][j'].product && e.mat == bomQty[..j][j'].mats[m'].0
        && e.series == Series(bomQty[..j][j'].mats[m'].1, prices[e.mat]);
      assert bomQty[..j][j'] == bomQty[j'];
    } else {
      assert e in tail;
      var m :| 0 <= m < |tail| && tail[m] == e;
      assert e.product == bomQty[j].product && e.mat == bomQty[j].mats[m].0;
    }
  }

  /** The inner loop of the `BOM_DEF` construction: one product's materials. */
  method AddProductEntries(entries: seq<BomEntry>, pb: ProductBom, prices: map<string, seq<real>>)
    returns (r: seq<BomEntry>)
    requires WellFormedProduct(pb, prices)
    ensures r == entries + ProductEntries(pb, |pb.mats|, prices)
  {
    r := entries;
    for m := 0 to |pb.mats|
      invariant r == entries + ProductEntries(pb, m, prices)
    {
      var matCd := pb.mats[m].0;
      var qtyList := pb.mats[m].1;
      r := r + [BomEntry(pb.product, matCd, Series(qtyList, prices[matCd]))];
    }
  }

  /** `BOM_DEF`: one entry per product and material, in table order. */
  method BuildBomDef(bomQty: seq<ProductBom>, prices: map<string, seq<real>>) returns (entries: seq<BomEntry>)
    requires WellFormedBom(bomQty, prices)
    ensures entries == BomEntries(bomQty, prices)
  {
    entries := [];
    for j := 0 to |bomQty|
      invariant entries == BomEntries(bomQty[..j], prices)
    {
      assert bomQty[..j + 1][..j] == bomQty[..j];
      assert WellFormedProduct(bomQty[j], prices);
      entries := AddProductEntries(entries, bomQty[j], prices);
    }
    assert bomQty[..|bomQty|] == bomQty;
  }

  // -----------------------------------------------------------------
  // Rate lookup
  // -----------------------------------------------------------------

  /** `_rate_cache_get`: the month's rate of (proc, ce), or None when the pair has no rate series. */
  function RateCacheGet(rateDef: RateDef, proc: string, ce: string, monthIdx: nat): (r: Option<real>)
    requires WellFormedRates(rateDef) && monthIdx < MonthCount
    ensures r.None? <==> (proc, ce) !in rateDef
    ensures r.Some? ==> var m := rateDef[(proc, ce)].months[monthIdx];
      r.value * m.1 == m.0 * 10000.0
  {
    if (proc, ce) !in rateDef then None
    else
      var m := rateDef[(proc, ce)].months[monthIdx];
      Some(Rate(m.0, m.1))
  }

  // -----------------------------------------------------------------
  // Variance records of the sample month
  // -----------------------------------------------------------------

  /** Front-end processes also get the total-cost / total-base split. */
  predicate IsFe(proc: string)
  {
    StartsWith(proc, "FE")
  }

  /** The records of one (process, product, cost element): none without rates, RV and QV, plus RC and RB for FE. */
  function CeRecord(proc: string, prod: string, grp: string, ce: string, q0: real, q1: real,
                    rateDef: RateDef): seq<VarianceCalc.Variance>
    requires WellFormedRates(rateDef)
  {
    var currM := Months[CurrIndex];
    match (RateCacheGet(rateDef, proc, ce, PrevIndex), RateCacheGet(rateDef, proc, ce, CurrIndex))
    case (Some(r0), Some(r1)) =>
      var prevAmt := Amount(q0, r0);
      var currAmt := Amount(q1, r1);
      var rateVar := VarianceCalc.RateEffect(r1, r0, q1);
      var qtyVar := VarianceCalc.QtyEffect(r0, q1, q0);
      var vid := VarianceCalc.VarIdBase(currM, prod, proc, ce);
      var rq := [VarianceCalc.MakeVariance(vid + "_RV", currM, prod, grp, proc, ce, VarianceCalc.RateVar, rateVar, prevAmt, currAmt),
                 VarianceCalc.MakeVariance(vid + "_QV", currM, prod, grp, proc, ce, VarianceCalc.QtyVar, qtyVar, prevAmt, currAmt)];
      if IsFe(proc) then
        var m := rateDef[(proc, ce)].months;
        var rateCost := (m[CurrIndex].0 - m[PrevIndex].0) * q1 / m[PrevIndex].1;
        var rateBase := rateVar - rateCost;
        rq + [VarianceCalc.MakeVariance(vid + "_RC", currM, prod, grp, proc, ce, VarianceCalc.RateCost, rateCost, prevAmt, currAmt),
              VarianceCalc.MakeVariance(vid + "_RB", currM, prod, grp, proc, ce, VarianceCalc.RateBase, rateBase, prevAmt, currAmt)]
      else rq
    case _ => []
  }

  /**
   * Shape and identities of one cell: two records without the FE split, four with
   * it, none without a rate series; rate plus quantity effect is exactly the change
   * of allocated amount; total-cost plus total-base effect is the rate effect.
   */
  lemma CeRecordDecomposition(proc: string, prod: string, grp: string, ce: string, q0: real, q1: real,
                              rateDef: RateDef)
    requires WellFormedRates(rateDef)
    ensures var r := CeRecord(proc, prod, grp, ce, q0, q1, rateDef);
      (|r| == 0 <==> (proc, ce) !in rateDef)
      && ((proc, ce) in rateDef ==> |r| == (if IsFe(proc) then 4 else 2))
      && (|r| >= 2 ==> (r[0].varType == VarianceCalc.RateVar && r[1].varType == VarianceCalc.QtyVar
                        && r[0].varAmt + r[1].varAmt == r[0].currAmt - r[0].prevAmt))
      && (|r| == 4 ==> (r[2].varType == VarianceCalc.RateCost && r[3].varType == VarianceCalc.RateBase
                        && r[2].varAmt + r[3].varAmt == r[0].varAmt))
  {
    if (proc, ce) in rateDef {
      var r0 := RateCacheGet(rateDef, proc, ce, PrevIndex).value;
      var r1 := RateCacheGet(rateDef, proc, ce, CurrIndex).value;
      VarianceCalc.RateQtySplit(r1, r0, q1, q0);
    }
  }

  /**
   * With the generator's own rates, the rate-cost part is all of the rate
   * effect when the base does not move, and the rate-base part is all of it
   * when the cost does not move.
   */
  lemma CostBaseAttribution(c0: real, b0: real, c1: real, b1: real, q1: real)
    requires b0 != 0.0 && b1 != 0.0
    ensures var rateVar := VarianceCalc.RateEffect(Rate(c1, b1), Rate(c0, b0), q1);
      var rateCost := (c1 - c0) * q1 / b0;
      (b1 == b0 ==> rateCost == rateVar) && (c1 == c0 ==> rateCost == 0.0)
  {
    if b1 == b0 {
      var r1, r0 := Rate(c1, b1), Rate(c0, b0);
      assert (r1 - r0) * b0 == (c1 - c0) * 10000.0;
      assert (r1 - r0) * q1 / 10000.0 == (c1 - c0) * q1 / b0 by {
        assert (r1 - r0) * q1 * b0 == (c1 - c0) * q1 * 10000.0;
      }
    }
  }

  function CeRecords(proc: string, prod: string, grp: string, ces: seq<string>, q0: real, q1: real,
                     rateDef: RateDef): seq<VarianceCalc.Variance>
    requires WellFormedRates(rateDef)
  {
    if ces == [] then []
    else CeRecords(proc, prod, grp, ces[..|ces| - 1], q0, q1, rateDef)
         + CeRecord(proc, prod, grp, ces[|ces| - 1], q0, q1, rateDef)
  }

  predicate WellFormedQty(byProduct: seq<(string, seq<real>)>)
  {
    forall p :: 0 <= p < |byProduct| ==> |byProduct[p].1| == MonthCount
  }

  function ProductRecords(proc: string, ces: seq<string>, byProduct: seq<(string, seq<real>)>,
                          grp: string -> string, rateDef: RateDef): seq<VarianceCalc.Variance>
    requires WellFormedRates(rateDef) && WellFormedQty(byProduct)
  {
    if byProduct == [] then []
    else
      var last := byProduct[|byProduct| - 1];
      ProductRecords(proc, ces, byProduct[..|byProduct| - 1], grp, rateDef)
      + CeRecords(proc, last.0, grp(last.0), ces, last.1[PrevIndex], last.1[CurrIndex], rateDef)
  }

  lemma ProductRecordsSnoc(proc: string, ces: seq<string>, byProduct: seq<(string, seq<real>)>, p: nat,
                           grp: string -> string, rateDef: RateDef)
    requires WellFormedRates(rateDef) && WellFormedQty(byProduct) && p < |byProduct|
    ensures WellFormedQty(byProduct[..p]) && WellFormedQty(byProduct[..p + 1])
    ensures ProductRecords(proc, ces, byProduct[..p + 1], grp, rateDef)
         == ProductRecords(proc, ces, byProduct[..p], grp, rateDef)
          + CeRecords(proc, byProduct[p].0, grp(byProduct[p].0), ces, byProduct[p].1[PrevIndex], byProduct[p].1[CurrIndex], rateDef)
  {
    assert byProduct[..p + 1][..p] == byProduct[..p];
  }

  /** The quantity table and the process list line up, process by process. */
  predicate Aligned(qtyDef: seq<ProcQty>, procCes: seq<ProcCes>)
  {
    |qtyDef| == |procCes|
    && forall k :: 0 <= k < |qtyDef| ==> qtyDef[k].proc == procCes[k].proc && WellFormedQty(qtyDef[k].byProduct)
  }

  function ProcRecords(qtyDef: seq<ProcQty>, procCes: seq<ProcCes>, grp: string -> string, rateDef: RateDef)
    : seq<VarianceCalc.Variance>
    requires WellFormedRates(rateDef) && Aligned(qtyDef, procCes)
  {
    if qtyDef == [] then []
    else
      var n := |qtyDef| - 1;
      ProcRecords(qtyDef[..n], procCes[..n], grp, rateDef)
      + ProductRecords(qtyDef[n].proc, procCes[n].ces, qtyDef[n].byProduct, grp, rateDef)
  }

  /** Only FE processes produce RATE_COST / RATE_BASE records. */
  lemma {:induction false} CeRecordsSplitOnlyFe(proc: string, prod: string, grp: string, ces: seq<string>,
                                                q0: real, q1: real, rateDef: RateDef)
    requires WellFormedRates(rateDef) && !IsFe(proc)
    ensures forall v :: v in CeRecords(proc, prod, grp, ces, q0, q1, rateDef) ==>
      v.varType == VarianceCalc.RateVar || v.varType == VarianceCalc.QtyVar
  {
    if ces != [] {
      CeRecordsSplitOnlyFe(proc, prod, grp, ces[..|ces| - 1], q0, q1, rateDef);
    }
  }

  lemma CeRecordsSnoc(proc: string, prod: string, grp: string, ces: seq<string>, c: nat,
                      q0: real, q1: real, rateDef: RateDef)
    requires WellFormedRates(rateDef) && c < |ces|
    ensures CeRecords(proc, prod, grp, ces[..c + 1], q0, q1, rateDef)
         == CeRecords(proc, prod, grp, ces[..c], q0, q1, rateDef) + CeRecord(proc, prod, grp, ces[c], q0, q1, rateDef)
  {
    assert ces[..c + 1][..c] == ces[..c];
  }

  /** The cost-element loop of one product. */
  method CellRecords(variances: seq<VarianceCalc.Variance>, proc: string, prod: string, grp: string,
                     ces: seq<string>, q0: real, q1: real, rateDef: RateDef)
    returns (r: seq<VarianceCalc.Variance>)
    requires WellFormedRates(rateDef)
    ensures r == variances + CeRecords(proc, prod, grp, ces, q0, q1, rateDef)
  {
    r := variances;
    for c := 0 to |ces|
      invariant r == variances + CeRecords(proc, prod, grp, ces[..c], q0, q1, rateDef)
    {
      var rec := CeRecord(proc, prod, grp, ces[c], q0, q1, rateDef);
      CeRecordsSnoc(proc, prod, grp, ces, c, q0, q1, rateDef);
      AppendAssoc(variances, CeRecords(proc, prod, grp, ces[..c], q0, q1, rateDef), rec);
      r := r + rec;
    }
    assert ces[..|ces|] == ces;
  }

  /** The product loop of one process. */
  method ProcessRecords(variances: seq<VarianceCalc.Variance>, proc: string, ces: seq<string>,
                        byProduct: seq<(string, seq<real>)>, grp: string -> string, rateDef: RateDef)
    returns (r: seq<VarianceCalc.Variance>)
    requires WellFormedRates(rateDef) && WellFormedQty(byProduct)
    ensures r == variances + ProductRecords(proc, ces, byProduct, grp, rateDef)
  {
    r := variances;
    for p := 0 to |byProduct|
      invariant r == variances + ProductRecords(proc, ces, byProduct[..p], grp, rateDef)
    {
      ProductRecordsSnoc(proc, ces, byProduct, p, grp, rateDef);
      var prod := byProduct[p].0;
      var qtyList := byProduct[p].1;
      AppendAssoc(variances, ProductRecords(proc, ces, byProduct[..p], grp, rateDef),
                  CeRecords(proc, prod, grp(prod), ces, qtyList[PrevIndex], qtyList[CurrIndex], rateDef));
      r := CellRecords(r, proc, prod, grp(prod), ces, qtyList[PrevIndex], qtyList[CurrIndex], rateDef);
    }
    assert byProduct[..|byProduct|] == byProduct;
  }

  // The material part: the BOM entries grouped by product, then per product
  // the price and usage effects over its materials.

  /** A material's (quantity, price) series. */
  type MatSeries = (string, seq<(real, real)>)

  function ProductsOfEntries(entries: seq<BomEntry>): (r: seq<string>)
    ensures |r| == |entries| && forall j :: 0 <= j < |entries| ==> r[j] == entries[j].product
  {
    if entries == [] then [] else ProductsOfEntries(entries[..|entries| - 1]) + [entries[|entries| - 1].product]
  }

  /** The (material, series) items of one product, in entry order. */
  function ItemsOf(entries: seq<BomEntry>, prod: string): seq<MatSeries>
  {
    if entries == [] then []
    else
      var e := entries[|entries| - 1];
      ItemsOf(entries[..|entries| - 1], prod) + (if e.product == prod then [(e.mat, e.series)] else [])
  }

  /** `bom_by_prod`: products in first-appearance order with their items. */
  method GroupByProduct(entries: seq<BomEntry>) returns (keys: seq<string>, groups: map<string, seq<MatSeries>>)
    ensures keys == VarianceCalc.UniqueInOrder(ProductsOfEntries(entries))
    ensures forall j :: 0 <= j < |keys| ==> keys[j] in groups && groups[keys[j]] == ItemsOf(entries, keys[j])
  {
    keys, groups := [], map[];
    for j := 0 to |entries|
      invariant keys == VarianceCalc.UniqueInOrder(ProductsOfEntries(entries[..j]))
      invariant forall p :: p in groups <==> p in keys
      invariant forall p :: p in groups ==> groups[p] == ItemsOf(entries[..j], p)
    {
      var e := entries[j];
      EntryStep(entries, j);
      if e.product !in groups {
        ItemsOfAbsent(entries[..j], e.product);
        keys := keys + [e.product];
        groups := groups[e.product := []];
      }
      groups := groups[e.product := groups[e.product] + [(e.mat, e.series)]];
    }
    assert entries[..|entries|] == entries;
    forall j | 0 <= j < |keys|
      ensures keys[j] in groups && groups[keys[j]] == ItemsOf(entries, keys[j])
    {
      assert keys[j] in keys;
    }
  }

  /** What one more entry does to the product list and to every product's items. */
  lemma EntryStep(entries: seq<BomEntry>, j: nat)
    requires j < |entries|
    ensures var e := entries[j];
      var before := VarianceCalc.UniqueInOrder(ProductsOfEntries(entries[..j]));
      VarianceCalc.UniqueInOrder(ProductsOfEntries(entries[..j + 1]))
        == (if e.product in before then before else before + [e.product])
    ensures forall p :: (ItemsOf(entries[..j + 1], p)
      == ItemsOf(entries[..j], p) + (if entries[j].product == p then [(entries[j].mat, entries[j].series)] else []))
  {
    var pre := entries[..j + 1];
    assert pre[..j] == entries[..j] && pre[j] == entries[j];
    assert ProductsOfEntries(pre)[..j] == ProductsOfEntries(entries[..j]);
  }

  lemma {:induction false} ItemsOfAbsent(entries: seq<BomEntry>, prod: string)
    requires prod !in VarianceCalc.UniqueInOrder(ProductsOfEntries(entries))
    ensures ItemsOf(entries, prod) == []
  {
    if entries != [] {
      var n := |entries| - 1;
      assert ProductsOfEntries(entries)[..n] == ProductsOfEntries(entries[..n]);
      assert prod != entries[n].product by {
        assert ProductsOfEntries(entries)[n] == entries[n].product;
      }
      ItemsOfAbsent(entries[..n], prod);
    }
  }

  predicate WellFormedItems(items: seq<MatSeries>)
  {
    forall j :: 0 <= j < |items| ==> |items[j].1| == MonthCount
  }

  function PriceTotal(items: seq<MatSeries>): real
    requires WellFormedItems(items)
  {
    if items == [] then 0.0
    else
      var s := items[|items| - 1].1;
      PriceTotal(items[..|items| - 1]) + (s[CurrIndex].1 - s[PrevIndex].1) * s[CurrIndex].0 / 10000.0
  }

  function UsageTotal(items: seq<MatSeries>): real
    requires WellFormedItems(items)
  {
    if items == [] then 0.0
    else
      var s := items[|items| - 1].1;
      UsageTotal(items[..|items| - 1]) + s[PrevIndex].1 * (s[CurrIndex].0 - s[PrevIndex].0) / 10000.0
  }

  function MatTotal(items: seq<MatSeries>, monthIdx: nat): real
    requires WellFormedItems(items) && monthIdx < MonthCount
  {
    if items == [] then 0.0
    else
      var s := items[|items| - 1].1;
      MatTotal(items[..|items| - 1], monthIdx) + Amount(s[monthIdx].0, s[monthIdx].1)
  }

  lemma MaterialItemSplit(q0: real, p0: real, q1: real, p1: real)
    ensures (p1 - p0) * q1 / 10000.0 + p0 * (q1 - q0) / 10000.0 == Amount(q1, p1) - Amount(q0, p0)
  {
    VarianceCalc.RateQtySplit(p1, p0, q1, q0);
    assert p1 * q1 == q1 * p1 && p0 * q0 == q0 * p0;
  }

  /** Price plus usage effect is exactly the change of the product's material cost. */
  lemma {:induction false} MaterialSplitExact(items: seq<MatSeries>)
    requires WellFormedItems(items)
    ensures PriceTotal(items) + UsageTotal(items) == MatTotal(items, CurrIndex) - MatTotal(items, PrevIndex)
  {
    if items != [] {
      var s := items[|items| - 1].1;
      MaterialSplitExact(items[..|items| - 1]);
      MaterialItemSplit(s[PrevIndex].0, s[PrevIndex].1, s[CurrIndex].0, s[CurrIndex].1);
    }
  }

  /** The four running totals of one product's materials. */
  method MaterialProductTotals(items: seq<MatSeries>)
    returns (totalPriceVar: real, totalUsageVar: real, prevTotal: real, currTotal: real)
    requires WellFormedItems(items)
    ensures totalPriceVar == PriceTotal(items) && totalUsageVar == UsageTotal(items)
    ensures prevTotal == MatTotal(items, PrevIndex) && currTotal == MatTotal(items, CurrIndex)
  {
    totalPriceVar, totalUsageVar, prevTotal, currTotal := 0.0, 0.0, 0.0, 0.0;
    for j := 0 to |items|
      invariant totalPriceVar == PriceTotal(items[..j]) && totalUsageVar == UsageTotal(items[..j])
      invariant prevTotal == MatTotal(items[..j], PrevIndex) && currTotal == MatTotal(items[..j], CurrIndex)
    {
      assert items[..j + 1][..j] == items[..j];
      var mdata := items[j].1;
      var q0, p0 := mdata[PrevIndex].0, mdata[PrevIndex].1;
      var q1, p1 := mdata[CurrIndex].0, mdata[CurrIndex].1;
      totalPriceVar := totalPriceVar + (p1 - p0) * q1 / 10000.0;
      totalUsageVar := totalUsageVar + p0 * (q1 - q0) / 10000.0;
      prevTotal := prevTotal + Amount(q0, p0);
      currTotal := currTotal + Amount(q1, p1);
    }
    assert items[..|items|] == items;
  }

  function MaterialRecord(prod: string, grp: string, items: seq<MatSeries>): (r: seq<VarianceCalc.Variance>)
    requires WellFormedItems(items)
    ensures |r| == 2 && r[0].varType == VarianceCalc.PriceVar && r[1].varType == VarianceCalc.UsageVar
    ensures r[0].varAmt + r[1].varAmt == r[0].currAmt - r[0].prevAmt
    ensures r[0].proc == "BE_01" && r[0].ce == "CE_MAT" && r[1].proc == "BE_01" && r[1].ce == "CE_MAT"
  {
    var currM := Months[CurrIndex];
    var vid := "V" + currM + "_" + prod + "_BE01_MAT";
    var prevTotal, currTotal := MatTotal(items, PrevIndex), MatTotal(items, CurrIndex);
    MaterialSplitExact(items);
    [VarianceCalc.MakeVariance(vid + "_PV", currM, prod, grp, "BE_01", "CE_MAT", VarianceCalc.PriceVar, PriceTotal(items), prevTotal, currTotal),
     VarianceCalc.MakeVariance(vid + "_UV", currM, prod, grp, "BE_01", "CE_MAT", VarianceCalc.UsageVar, UsageTotal(items), prevTotal, currTotal)]
  }

  predicate WellFormedEntries(entries: seq<BomEntry>)
  {
    forall j :: 0 <= j < |entries| ==> |entries[j].series| == MonthCount
  }

  lemma {:induction false} ItemsOfWellFormed(entries: seq<BomEntry>, prod: string)
    requires WellFormedEntries(entries)
    ensures WellFormedItems(ItemsOf(entries, prod))
  {
    if entries != [] {
      ItemsOfWellFormed(entries[..|entries| - 1], prod);
    }
  }

  function MaterialRecords(keys: seq<string>, entries: seq<BomEntry>, grp: string -> string): seq<VarianceCalc.Variance>
    requires WellFormedEntries(entries)
  {
    if keys == [] then []
    else
      var prod := keys[|keys| - 1];
      ItemsOfWellFormed(entries, prod);
      MaterialRecords(keys[..|keys| - 1], entries, grp) + MaterialRecord(prod, grp(prod), ItemsOf(entries, prod))
  }

  lemma MaterialRecordsSnoc(keys: seq<string>, k: nat, entries: seq<BomEntry>, grp: string -> string)
    requires WellFormedEntries(entries) && k < |keys|
    ensures WellFormedItems(ItemsOf(entries, keys[k]))
    ensures MaterialRecords(keys[..k + 1], entries, grp)
         == MaterialRecords(keys[..k], entries, grp) + MaterialRecord(keys[k], grp(keys[k]), ItemsOf(entries, keys[k]))
  {
    assert keys[..k + 1][..k] == keys[..k];
    ItemsOfWellFormed(entries, keys[k]);
  }

  /** The loop body for one product: its price and usage records. */
  method ProductMaterialRecords(prod: string, grp: string, items: seq<MatSeries>) returns (block: seq<VarianceCalc.Variance>)
    requires WellFormedItems(items)
    ensures block == MaterialRecord(prod, grp, items)
  {
    var totalPriceVar, totalUsageVar, prevTotal, currTotal := MaterialProductTotals(items);
    var vid := "V" + Months[CurrIndex] + "_" + prod + "_BE01_MAT";
    block := [VarianceCalc.MakeVariance(vid + "_PV", Months[CurrIndex], prod, grp, "BE_01", "CE_MAT",
                                        VarianceCalc.PriceVar, totalPriceVar, prevTotal, currTotal),
              VarianceCalc.MakeVariance(vid + "_UV", Months[CurrIndex], prod, grp, "BE_01", "CE_MAT",
                                        VarianceCalc.UsageVar, totalUsageVar, prevTotal, currTotal)];
  }

  /** The material part of `_insert_variance_data`: two records per product of the BOM. */
  method MaterialVariances(variances: seq<VarianceCalc.Variance>, entries: seq<BomEntry>, grp: string -> string)
    returns (r: seq<VarianceCalc.Variance>)
    requires WellFormedEntries(entries)
    ensures r == variances + MaterialRecords(VarianceCalc.UniqueInOrder(ProductsOfEntries(entries)), entries, grp)
  {
    var keys, bomByProd := GroupByProduct(entries);
    r := variances;
    for k := 0 to |keys|
      invariant r == variances + MaterialRecords(keys[..k], entries, grp)
    {
      MaterialRecordsSnoc(keys, k, entries, grp);
      var prod := keys[k];
      var items := bomByProd[prod];
      assert items == ItemsOf(entries, prod);
      var block := ProductMaterialRecords(prod, grp(prod), items);
      AppendAssoc(variances, MaterialRecords(keys[..k], entries, grp), block);
      r := r + block;
    }
    assert keys[..|keys|] == keys;
  }

  /**
   * `_insert_variance_data` without the database write: the rate/quantity
   * records of every process, product and cost element, then the material
   * records of every product.
   */
  method InsertVarianceData(qtyDef: seq<ProcQty>, procCes: seq<ProcCes>, rateDef: RateDef,
                            entries: seq<BomEntry>, grp: string -> string)
    returns (variances: seq<VarianceCalc.Variance>)
    requires WellFormedRates(rateDef) && Aligned(qtyDef, procCes) && WellFormedEntries(entries)
    ensures variances == ProcRecords(qtyDef, procCes, grp, rateDef)
      + MaterialRecords(VarianceCalc.UniqueInOrder(ProductsOfEntries(entries)), entries, grp)
  {
    variances := [];
    for k := 0 to |qtyDef|
      invariant variances == ProcRecords(qtyDef[..k], procCes[..k], grp, rateDef)
    {
      assert qtyDef[..k + 1][..k] == qtyDef[..k] && procCes[..k + 1][..k] == procCes[..k];
      variances := ProcessRecords(variances, qtyDef[k].proc, procCes[k].ces, qtyDef[k].byProduct, grp, rateDef);
    }
    assert qtyDef[..|qtyDef|] == qtyDef && procCes[..|procCes|] == procCes;
    variances := MaterialVariances(variances, entries, grp);
  }
}
