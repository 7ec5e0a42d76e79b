// Month arithmetic on "YYYYMM" strings, shared by the variance calculator,
// the dashboard API, the report API and the rule engine.
module Period {

  predicate IsDigit(c: char)
  {
    '0' <= c <= '9'
  }

  predicate AllDigits(s: string)
  {
    forall i :: 0 <= i < |s| ==> IsDigit(s[i])
  }

  function DigitValue(c: char): (d: nat)
    requires IsDigit(c)
    ensures d < 10
  {
    c as int - '0' as int
  }

  function DigitChar(d: nat): (c: char)
    requires d < 10
    ensures IsDigit(c) && DigitValue(c) == d
  {
    ('0' as int + d) as char
  }

  /** Python's int() applied to a string of decimal digits. */
  function ParseNat(s: string): nat
    requires AllDigits(s)
  {
    if s == [] then 0 else ParseNat(s[..|s| - 1]) * 10 + DigitValue(s[|s| - 1])
  }

  /** Decimal digits of n without leading zeros ("0" for zero), as Python's str(). */
  function NatToString(n: nat): (r: string)
    ensures |r| >= 1 && AllDigits(r)
    ensures r[0] == '0' ==> n == 0
  {
    if n < 10 then [DigitChar(n)] else NatToString(n / 10) + [DigitChar(n % 10)]
  }

  lemma {:induction false} ParseNatToString(n: nat)
    ensures ParseNat(NatToString(n)) == n
  {
    if n >= 10 {
      var r := NatToString(n);
      assert r[..|r| - 1] == NatToString(n / 10);
      ParseNatToString(n / 10);
    }
  }

  lemma {:induction false} NatToStringParse(s: string)
    requires AllDigits(s) && s != [] && (s[0] != '0' || |s| == 1)
    ensures NatToString(ParseNat(s)) == s
  {
    var n := ParseNat(s);
    if |s| == 1 {
      assert s[..0] == [];
    } else {
      var p := s[..|s| - 1];
      NatToStringParse(p);
      LeadingDigitPositive(p);
      assert n / 10 == ParseNat(p) && n % 10 == DigitValue(s[|s| - 1]);
      assert s == p + [s[|s| - 1]];
    }
  }

  lemma {:induction false} LeadingDigitPositive(s: string)
    requires AllDigits(s) && s != [] && s[0] != '0'
    ensures ParseNat(s) > 0
  {
    if |s| > 1 {
      LeadingDigitPositive(s[..|s| - 1]);
    }
  }

  lemma {:induction false} NatToStringLength(n: nat)
    ensures n < 10 ==> |NatToString(n)| == 1
    ensures 10 <= n < 100 ==> |NatToString(n)| == 2
    ensures 1000 <= n < 10000 ==> |NatToString(n)| == 4
  {
    if n >= 10 {
      NatToStringLength(n / 10);
      if n >= 1000 {
        NatToStringLength(n / 100);
        NatToStringLength(n / 1000);
      }
    }
  }

  /** Python's str() on an integer, with a leading '-' for negatives. */
  function IntToString(n: int): (r: string)
    ensures n >= 0 ==> AllDigits(r)
    ensures n < 0 ==> |r| >= 2 && r[0] == '-'
  {
    if n < 0 then "-" + NatToString(-n) else NatToString(n)
  }

  /** Python's f"{n:02d}": zero-padded to two characters, sign included. */
  function Pad2(n: int): (r: string)
    ensures 0 <= n < 100 ==> |r| == 2 && AllDigits(r) && ParseNat(r) == n
    ensures n >= 0 ==> AllDigits(r)
  {
    NatToStringLength(if n < 0 then 0 else n);
    if 0 <= n < 10 then
      assert ParseNat(['0', DigitChar(n)][..1]) == 0;
      ['0', DigitChar(n)]
    else
      ParseNatToString(if n < 0 then 0 else n);
      IntToString(n)
  }

  /** A string that starts with six decimal digits, as the "YYYYMM" parameters do. */
  predicate IsYyyymm(s: string)
  {
    |s| >= 6 && AllDigits(s[..6])
  }

  /** int(s[:4]) */
  function YearOf(s: string): nat
    requires IsYyyymm(s)
  {
    ParseNat(s[..4])
  }

  /** int(s[4:6]) */
  function MonthOf(s: string): nat
    requires IsYyyymm(s)
  {
    ParseNat(s[4..6])
  }

  /** f"{year}{month:02d}" */
  function Format(year: int, month: int): string
  {
    IntToString(year) + Pad2(month)
  }

  /** Months since year 0, with month 1 ↦ offset 0. */
  function MonthIndex(year: int, month: int): int
  {
    12 * year + month - 1
  }

  /** The calendar month k months before (year, month), by floor division. */
  function Shift(year: int, month: int, k: int): (r: (int, int))
    ensures 1 <= r.1 <= 12
    ensures MonthIndex(r.0, r.1) == MonthIndex(year, month) - k
  {
    var idx := MonthIndex(year, month) - k;
    (idx / 12, idx % 12 + 1)
  }

  /** Shift is the only in-range representation of a month index. */
  lemma ShiftUnique(year: int, month: int, k: int, y: int, m: int)
    requires 1 <= m <= 12 && MonthIndex(y, m) == MonthIndex(year, month) - k
    ensures Shift(year, month, k) == (y, m)
  {
  }

  /** Round trip: a four-digit year and a month in 1..12 format to a "YYYYMM" that parses back. */
  lemma FormatRoundTrip(year: int, month: int)
    requires 1000 <= year <= 9999 && 1 <= month <= 12
    ensures |Format(year, month)| == 6 && IsYyyymm(Format(year, month))
    ensures YearOf(Format(year, month)) == year && MonthOf(Format(year, month)) == month
  {
    var a, b := IntToString(year), Pad2(month);
    NatToStringLength(year);
    ParseNatToString(year);
    var f := a + b;
    assert f[..4] == a && f[4..6] == b;
  }

  /** Formatting the parsed fields of a canonical "YYYYMM" gives back its first six characters. */
  lemma {:induction false} FormatParsed(s: string)
    requires IsYyyymm(s) && s[0] != '0' && MonthOf(s) <= 12
    ensures Format(YearOf(s), MonthOf(s)) == s[..6]
  {
    var ys, ms := s[..4], s[4..6];
    NatToStringParse(ys);
    if s[4] == '0' {
      assert ms[..1] == ['0'];
      assert ParseNat(ms) == DigitValue(s[5]);
      assert Pad2(MonthOf(s)) == ms;
    } else {
      NatToStringParse(ms);
    }
    assert s[..6] == ys + ms;
  }

  /**
   * The previous month of a "YYYYMM" string: January wraps to December of
   * the previous year, otherwise the month is decremented and zero-padded.
   */
  function PrevMonth(s: string): string
    requires IsYyyymm(s)
  {
    var year := YearOf(s);
    var month := MonthOf(s);
    if month == 1 then
      IntToString(year - 1) + "12"
    else
      Format(year, month - 1)
  }

  /** For a month in 1..12 the previous month is the calendar shift by one, formatted. */
  lemma PrevMonthIsShift(s: string)
    requires IsYyyymm(s) && 1 <= MonthOf(s) <= 12
    ensures var p := Shift(YearOf(s), MonthOf(s), 1);
      PrevMonth(s) == Format(p.0, p.1)
  {
    var p := Shift(YearOf(s), MonthOf(s), 1);
    if MonthOf(s) == 1 {
      ShiftUnique(YearOf(s), MonthOf(s), 1, YearOf(s) - 1, 12);
    } else {
      ShiftUnique(YearOf(s), MonthOf(s), 1, YearOf(s), MonthOf(s) - 1);
    }
  }

  /** The previous month of a four-digit "YYYYMM" is again one, exactly one month earlier. */
  lemma PrevMonthRoundTrip(s: string)
    requires IsYyyymm(s) && 1 <= MonthOf(s) <= 12 && 1000 <= YearOf(s)
    requires !(YearOf(s) == 1000 && MonthOf(s) == 1)
    ensures IsYyyymm(PrevMonth(s)) && |PrevMonth(s)| == 6
    ensures MonthIndex(YearOf(PrevMonth(s)), MonthOf(PrevMonth(s)))
            == MonthIndex(YearOf(s), MonthOf(s)) - 1
  {
    assert ParseNat(s[..4]) <= 9999 by { ParseNatBound4(s[..4]); }
    var p := Shift(YearOf(s), MonthOf(s), 1);
    PrevMonthIsShift(s);
    FormatRoundTrip(p.0, p.1);
  }

  function Pow10(k: nat): nat
  {
    if k == 0 then 1 else 10 * Pow10(k - 1)
  }

  lemma {:induction false} ParseNatBound(s: string)
    requires AllDigits(s)
    ensures ParseNat(s) < Pow10(|s|)
  {
    if s != [] {
      ParseNatBound(s[..|s| - 1]);
    }
  }

  lemma ParseNatBound4(s: string)
    requires AllDigits(s) && |s| == 4
    ensures ParseNat(s) <= 9999
  {
    ParseNatBound(s);
  }

  /**
   * The month k months before (year, month), computed as the source does:
   * subtract, then add 12 and decrement the year while the month is not positive.
   */
  method MonthsBack(year: int, month: int, k: int) returns (ny: int, nm: int)
    ensures MonthIndex(ny, nm) == MonthIndex(year, month) - k
    ensures nm >= 1
    ensures month - k <= 12 ==> nm <= 12
    ensures month - k >= 1 ==> ny == year && nm == month - k
  {
    nm := month - k;
    ny := year;
    while nm <= 0
      invariant MonthIndex(ny, nm) == MonthIndex(year, month) - k
      invariant month - k <= 12 ==> nm <= 12
      invariant month - k >= 1 ==> ny == year && nm == month - k
      decreases -nm
    {
      nm := nm + 12;
      ny := ny - 1;
    }
  }

  /** f"{y}{m:02d}" for the month k months before (year, month). */
  function FormatShift(year: int, month: int, k: int): string
  {
    var p := Shift(year, month, k);
    Format(p.0, p.1)
  }

  /** What MonthsBack computes for a month of at most 12 is the shifted month. */
  lemma BackIsShift(y: int, m: int, i: int, ny: int, nm: int)
    requires m <= 12 && i >= 0 && 1 <= nm
    requires MonthIndex(ny, nm) == MonthIndex(y, m) - i && (m - i <= 12 ==> nm <= 12)
    ensures Format(ny, nm) == FormatShift(y, m, i)
  {
    ShiftUnique(y, m, i, ny, nm);
  }

  /** Appending the month `i` back keeps the range entries in place. */
  lemma RangeSnoc(y: int, m: int, count: int, months: seq<string>, i: int)
    requires |months| == count - 1 - i
    requires forall j :: 0 <= j < |months| ==> months[j] == FormatShift(y, m, count - 1 - j)
    ensures forall j :: 0 <= j < |months| + 1 ==>
      (months + [FormatShift(y, m, i)])[j] == FormatShift(y, m, count - 1 - j)
  {
  }

  /**
   * The `count` months ending at `s`, oldest first
   * (i runs from count-1 down to 0, each month i months back).
   */
  method MonthsRange(s: string, count: int) returns (months: seq<string>)
    requires IsYyyymm(s)
    ensures |months| == if count > 0 then count else 0
    ensures MonthOf(s) <= 12 ==>
      forall j :: 0 <= j < |months| ==>
        months[j] == FormatShift(YearOf(s), MonthOf(s), |months| - 1 - j)
  {
    var y, m := YearOf(s), MonthOf(s);
    months := [];
    var i := if count > 0 then count - 1 else -1;
    while i >= 0
      invariant -1 <= i <= if count > 0 then count - 1 else -1
      invariant |months| == (if count > 0 then count else 0) - 1 - i
      invariant m <= 12 ==>
        forall j :: 0 <= j < |months| ==> months[j] == FormatShift(y, m, count - 1 - j)
    {
      var ny, nm := MonthsBack(y, m, i);
      if m <= 12 {
        BackIsShift(y, m, i, ny, nm);
        RangeSnoc(y, m, count, months, i);
      }
      months := months + [Format(ny, nm)];
      i := i - 1;
    }
  }

  /** Consecutive entries of the month range are one month apart, and each is in 1..12. */
  lemma {:induction false} RangeConsecutive(year: int, month: int, count: nat, j: nat)
    requires j + 1 < count
    ensures var a, b := Shift(year, month, count - 1 - j), Shift(year, month, count - 2 - j);
      MonthIndex(b.0, b.1) == MonthIndex(a.0, a.1) + 1 && 1 <= a.1 <= 12 && 1 <= b.1 <= 12
  {
  }

  /** The last entry of the range is the input month itself (for a canonical input). */
  lemma RangeEndsAtInput(s: string)
    requires IsYyyymm(s) && s[0] != '0' && 1 <= MonthOf(s) <= 12
    ensures FormatShift(YearOf(s), MonthOf(s), 0) == s[..6]
  {
    ShiftUnique(YearOf(s), MonthOf(s), 0, YearOf(s), MonthOf(s));
    FormatParsed(s);
  }

  /** The previous month is the first entry of the two-month range. */
  lemma PrevMonthIsRangeStart(s: string)
    requires IsYyyymm(s) && 1 <= MonthOf(s) <= 12
    ensures PrevMonth(s) == FormatShift(YearOf(s), MonthOf(s), 1)
  {
    PrevMonthIsShift(s);
  }

  /** f"{int(ym[4:6]):02d}월", the month label of the trend chart. */
  function MonthLabel(ym: string): (r: string)
    requires IsYyyymm(ym)
    ensures MonthOf(ym) < 100 ==>
      |r| == 3 && r[2] == '월' && AllDigits(r[..2]) && ParseNat(r[..2]) == MonthOf(ym)
  {
    var p := Pad2(MonthOf(ym));
    assert MonthOf(ym) < 100 ==> (p + "월")[..2] == p;
    p + "월"
  }
}
