// The causal rule engine: the six rules run in a fixed order, and the
// look-back window of the similar-past-case rule starts a configurable
// number of months before the analysed month.
module RuleEngine {
  import Period

  /** Default of the SIMILAR_LOOKBACK_MONTHS setting. */
  const DefaultLookback: int := 12

  datatype Rule =
    | CostDecomposition       // Rule 1
    | RateDecomposition       // Rule 2
    | MesEventMatching        // Rule 3
    | MaterialEventMatching   // Rule 4
    | SpreadRelationship      // Rule 5
    | SimilarPastCases        // Rule 6

  function RuleNumber(r: Rule): (n: nat)
    ensures 1 <= n <= 6
  {
    match r
    case CostDecomposition => 1
    case RateDecomposition => 2
    case MesEventMatching => 3
    case MaterialEventMatching => 4
    case SpreadRelationship => 5
    case SimilarPastCases => 6
  }

  /** Distinct rules have distinct numbers. */
  lemma RuleNumberInjective(a: Rule, b: Rule)
    requires RuleNumber(a) == RuleNumber(b)
    ensures a == b
  {
  }

  /**
   * The rules in the order they run; the query bodies are database writes
   * and are represented only by the rule they belong to.
   */
  method ExecuteAllRules() returns (ran: seq<Rule>)
    ensures |ran| == 6
    ensures forall i :: 0 <= i < |ran| ==> RuleNumber(ran[i]) == i + 1
  {
    ran := [];
    ran := ran + [CostDecomposition];
    ran := ran + [RateDecomposition];
    ran := ran + [MesEventMatching];
    ran := ran + [MaterialEventMatching];
    ran := ran + [SpreadRelationship];
    ran := ran + [SimilarPastCases];
  }

  /** Every rule runs exactly once, so each rule's writes happen after those of every lower-numbered rule. */
  lemma EachRuleOnce(ran: seq<Rule>, r: Rule)
    requires |ran| == 6
    requires forall i :: 0 <= i < |ran| ==> RuleNumber(ran[i]) == i + 1
    ensures r in ran && ran[RuleNumber(r) - 1] == r
    ensures forall i, j :: 0 <= i < j < |ran| ==> RuleNumber(ran[i]) < RuleNumber(ran[j])
  {
    RuleNumberInjective(ran[RuleNumber(r) - 1], r);
  }

  /**
   * The lower bound of the look-back window: year and month of `yyyymm`,
   * the month decreased by `lookback` and brought back into range by
   * adding 12 and decrementing the year while it is not positive, then
   * formatted as the year followed by a two-digit month.
   */
  method LookbackStart(yyyymm: string, lookback: int)
    returns (minYyyymm: string, startYear: int, startMonth: int)
    requires Period.IsYyyymm(yyyymm)
    ensures Period.MonthIndex(startYear, startMonth)
      == Period.MonthIndex(Period.YearOf(yyyymm), Period.MonthOf(yyyymm)) - lookback
    ensures startMonth >= 1
    ensures Period.MonthOf(yyyymm) - lookback <= 12 ==> startMonth <= 12
    ensures lookback < Period.MonthOf(yyyymm) ==>
      startYear == Period.YearOf(yyyymm) && startMonth == Period.MonthOf(yyyymm) - lookback
    ensures minYyyymm == Period.Format(startYear, startMonth)
    ensures 1000 <= startYear <= 9999 && startMonth <= 12 ==>
      Period.IsYyyymm(minYyyymm) && |minYyyymm| == 6
      && Period.YearOf(minYyyymm) == startYear && Period.MonthOf(minYyyymm) == startMonth
  {
    var year := Period.YearOf(yyyymm);
    var month := Period.MonthOf(yyyymm);
    startMonth := month - lookback;
    startYear := year;
    while startMonth <= 0
      invariant Period.MonthIndex(startYear, startMonth) == Period.MonthIndex(year, month) - lookback
      invariant month - lookback <= 12 ==> startMonth <= 12
      invariant lookback < month ==> startYear == year && startMonth == month - lookback
      decreases -startMonth
    {
      startMonth := startMonth + 12;
      startYear := startYear - 1;
    }
    minYyyymm := Period.Format(startYear, startMonth);
    if 1000 <= startYear <= 9999 && startMonth <= 12 {
      Period.FormatRoundTrip(startYear, startMonth);
    }
  }

  /**
   * For a month in 1..12 and a non-negative look-back the window start is
   * the calendar month `lookback` months earlier, the one the month range
   * of the dashboard computes.
   */
  lemma LookbackIsShift(yyyymm: string, lookback: int, startYear: int, startMonth: int)
    requires Period.IsYyyymm(yyyymm) && 1 <= Period.MonthOf(yyyymm) <= 12 && lookback >= 0
    requires Period.MonthIndex(startYear, startMonth)
      == Period.MonthIndex(Period.YearOf(yyyymm), Period.MonthOf(yyyymm)) - lookback
    requires 1 <= startMonth
    requires Period.MonthOf(yyyymm) - lookback <= 12 ==> startMonth <= 12
    ensures 1 <= startMonth <= 12
    ensures Period.Format(startYear, startMonth)
      == Period.FormatShift(Period.YearOf(yyyymm), Period.MonthOf(yyyymm), lookback)
  {
    Period.ShiftUnique(Period.YearOf(yyyymm), Period.MonthOf(yyyymm), lookback, startYear, startMonth);
  }
}
