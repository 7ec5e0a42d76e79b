// The evidence package handed to the language model: the time-series
// statistics of one variance, the package's error path, and the rendering
// of the whole package as a prompt.
module Evidence {
  import opened Common
  import Sorting

  // ---------------------------------------------------------------
  // Records. The target and the events are map projections (`{.*}`),
  // which leave out a null property, so a key may be missing: an Option
  // read with `dict.get`'s default. The spread and similar-case rows are
  // named query columns: every key is present and a null value arrives
  // as None, which the prompt prints as "None".
  // ---------------------------------------------------------------

  /** The properties of a variance node that the package reads. */
  datatype VarInfo = VarInfo(
    productGrp: Option<string>, productCd: Option<string>, procCd: Option<string>,
    ceCd: Option<string>, varType: Option<string>, varAmt: Option<real>, varRate: Option<real>)

  /** One row of the cost-history query: month and amount. */
  datatype TsRow = TsRow(month: string, amount: real)

  datatype TimeSeries = TimeSeries(data: seq<TsRow>, avg: real, deviation: real, latest: Option<real>)

  datatype EventRec = EventRec(source: Option<string>, description: Option<string>, eventType: Option<string>)

  /** A spread row; None is a null column value. */
  datatype SpreadRec = SpreadRec(productCd: Option<string>, varRate: Option<real>)

  /** A similar-case row; None is a null column value. */
  datatype SimilarRec = SimilarRec(month: Option<string>, varRate: Option<real>, classification: Option<string>)

  datatype Package =
    | NotFound(error: string)
    | Package(target: VarInfo, timeSeries: TimeSeries, events: seq<EventRec>,
              spread: seq<SpreadRec>, similar: seq<SimilarRec>)

  /** Python truthiness of an optional string: present and non-empty. */
  predicate Truthy(x: Option<string>)
  {
    x.Some? && x.value != ""
  }

  /** `d.get(key, default)` for a string value. */
  function GetOr(x: Option<string>, default: string): (r: string)
    ensures x.Some? ==> r == x.value
    ensures x.None? ==> r == default
  {
    match x
    case Some(v) => v
    case None => default
  }

  /** A nullable string column in an f-string: its value, or "None" for null. */
  function Str(x: Option<string>): (r: string)
    ensures x.Some? ==> r == x.value
    ensures x.None? ==> r == "None"
  {
    match x
    case Some(v) => v
    case None => "None"
  }

  /** `d.get(key, 0)` for a numeric value. */
  function GetOrZero(x: Option<real>): (r: real)
    ensures x.Some? ==> r == x.value
    ensures x.None? ==> r == 0.0
  {
    match x
    case Some(v) => v
    case None => 0.0
  }

  // ---------------------------------------------------------------
  // Time series
  // ---------------------------------------------------------------

  const EmptySeries := TimeSeries([], 0.0, 0.0, None)

  function Amounts(rows: seq<TsRow>): (a: seq<real>)
    ensures |a| == |rows| && forall i :: 0 <= i < |rows| ==> a[i] == rows[i].amount
  {
    seq(|rows|, i requires 0 <= i < |rows| => rows[i].amount)
  }

  /** `list(reversed(s))`. */
  function Reverse<T>(s: seq<T>): (r: seq<T>)
    ensures |r| == |s| && forall i :: 0 <= i < |s| ==> r[i] == s[|s| - 1 - i]
  {
    seq(|s|, i requires 0 <= i < |s| => s[|s| - 1 - i])
  }

  /**
   * Statistics over the most recent rows, newest first as the query
   * orders them. An incomplete key or fewer than two rows gives the empty
   * series. Otherwise the data in chronological order, the mean, the
   * newest amount, and its deviation from the mean in percent of the mean
   * (0 when the mean is 0).
   */
  function TimeSeriesOf(info: VarInfo, rows: seq<TsRow>): (ts: TimeSeries)
    ensures !(Truthy(info.productCd) && Truthy(info.procCd) && Truthy(info.ceCd)) ==> ts == EmptySeries
    ensures |rows| < 2 ==> ts == EmptySeries
    ensures Truthy(info.productCd) && Truthy(info.procCd) && Truthy(info.ceCd) && |rows| >= 2 ==>
      ts.data == Reverse(rows)
      && ts.avg * (|rows| as real) == Sum(Amounts(rows))
      && ts.latest == Some(rows[0].amount)
      && (ts.avg == 0.0 ==> ts.deviation == 0.0)
      && (ts.avg != 0.0 ==> ts.deviation * ts.avg == (rows[0].amount - ts.avg) * 100.0)
  {
    if !(Truthy(info.productCd) && Truthy(info.procCd) && Truthy(info.ceCd)) then
      EmptySeries
    else if |rows| < 2 then
      EmptySeries
    else
      var amounts := Amounts(rows);
      var avg := Sum(amounts) / (|amounts| as real);
      var latest := amounts[0];
      TimeSeries(Reverse(rows), avg, PercentOf(latest - avg, avg), Some(latest))
  }

  /** A sum of values within [lo, hi] lies between n*lo and n*hi. */
  lemma {:induction false} SumWithin(s: seq<real>, lo: real, hi: real)
    requires forall i :: 0 <= i < |s| ==> lo <= s[i] <= hi
    ensures (|s| as real) * lo <= Sum(s) <= (|s| as real) * hi
  {
    if s != [] {
      SumWithin(s[1..], lo, hi);
    }
  }

  /** The mean lies between the smallest and the largest amount. */
  lemma MeanWithin(info: VarInfo, rows: seq<TsRow>, lo: real, hi: real)
    requires Truthy(info.productCd) && Truthy(info.procCd) && Truthy(info.ceCd) && |rows| >= 2
    requires forall i :: 0 <= i < |rows| ==> lo <= rows[i].amount <= hi
    ensures lo <= TimeSeriesOf(info, rows).avg <= hi
  {
    var a := Amounts(rows);
    SumWithin(a, lo, hi);
    var n := |rows| as real;
    var avg := TimeSeriesOf(info, rows).avg;
    assert avg * n == Sum(a);
    DivideBounds(avg, n, Sum(a), lo, hi);
  }

  /** From n·lo ≤ avg·n ≤ n·hi with n positive, lo ≤ avg ≤ hi. */
  lemma DivideBounds(avg: real, n: real, sum: real, lo: real, hi: real)
    requires n > 0.0 && avg * n == sum && n * lo <= sum <= n * hi
    ensures lo <= avg <= hi
  {
    assert (avg - lo) * n >= 0.0;
    assert (hi - avg) * n >= 0.0;
  }

  /**
   * Rows in strictly decreasing month order (as the query returns them)
   * give data in strictly increasing month order, ending with the latest
   * amount.
   */
  lemma Chronological(info: VarInfo, rows: seq<TsRow>)
    requires Truthy(info.productCd) && Truthy(info.procCd) && Truthy(info.ceCd) && |rows| >= 2
    requires forall i, j :: 0 <= i < j < |rows| ==> Sorting.LexLess(rows[j].month, rows[i].month)
    ensures var ts := TimeSeriesOf(info, rows);
      (forall i, j :: 0 <= i < j < |ts.data| ==> Sorting.LexLess(ts.data[i].month, ts.data[j].month))
      && ts.latest == Some(ts.data[|ts.data| - 1].amount)
  {
    var ts := TimeSeriesOf(info, rows);
    forall i, j | 0 <= i < j < |ts.data|
      ensures Sorting.LexLess(ts.data[i].month, ts.data[j].month)
    {
      assert ts.data[i] == rows[|rows| - 1 - i] && ts.data[j] == rows[|rows| - 1 - j];
    }
  }

  // ---------------------------------------------------------------
  // The package
  // ---------------------------------------------------------------

  /**
   * The package for one variance id. The node lookup and the evidence
   * queries are database reads and arrive as arguments; a missing node
   * gives a result holding only the error message.
   */
  function BuildEvidencePackage(varId: string, info: Option<VarInfo>, history: seq<TsRow>,
                                events: seq<EventRec>, spread: seq<SpreadRec>,
                                similar: seq<SimilarRec>): (p: Package)
    ensures p.NotFound? <==> info.None?
    ensures p.NotFound? ==> EndsWith(p.error, varId)
    ensures p.Package? ==> p.target == info.value && p.timeSeries == TimeSeriesOf(info.value, history)
    ensures p.Package? ==> p.events == events && p.spread == spread && p.similar == similar
  {
    if info.None? then
      var msg := "차이 노드를 찾을 수 없습니다: " + varId;
      assert msg[|msg| - |varId|..] == varId;
      NotFound(msg)
    else
      Package(info.value, TimeSeriesOf(info.value, history), events, spread, similar)
  }

  // ---------------------------------------------------------------
  // The prompt. Number formatting (`:.1f`, `:.1%`) is a parameter.
  // ---------------------------------------------------------------

  const NoneLine := "  해당 없음\n"

  function EventLine(e: EventRec): string
  {
    "  " + GetOr(e.source, "N/A") + ": " + GetOr(e.description, GetOr(e.eventType, "N/A")) + "\n"
  }

  /** A spread line; the key is always present, so the 'N/A' default never applies. A null rate cannot be formatted. */
  function SpreadLine(s: SpreadRec, pct: real -> string): string
    requires s.varRate.Some?
  {
    "  " + Str(s.productCd) + ": " + pct(s.varRate.value) + "\n"
  }

  /** A similar-case line; as for spread lines, no default applies and a null rate cannot be formatted. */
  function SimilarLine(s: SimilarRec, pct: real -> string): string
    requires s.varRate.Some?
  {
    "  " + Str(s.month) + ": " + pct(s.varRate.value)
    + " (판정: " + Str(s.classification) + ")\n"
  }

  /** `format(None, '.1%')` raises TypeError: the prompt exists only when every spread and similar-case rate is non-null. */
  predicate RatesPresent(spread: seq<SpreadRec>, similar: seq<SimilarRec>)
  {
    (forall i :: 0 <= i < |spread| ==> spread[i].varRate.Some?)
    && (forall i :: 0 <= i < |similar| ==> similar[i].varRate.Some?)
  }

  /** The lines of a list, one per entry, in order. */
  function Lines<T>(items: seq<T>, line: T --> string): string
    requires forall x :: x in items ==> line.requires(x)
  {
    if items == [] then "" else Lines(items[..|items| - 1], line) + line(items[|items| - 1])
  }

  /** A list's section: its lines, or the placeholder line when it is empty. */
  function Section<T>(items: seq<T>, line: T --> string): string
    requires forall x :: x in items ==> line.requires(x)
  {
    if items == [] then NoneLine else Lines(items, line)
  }

  /** Each entry line has the form "  <label>: ...", so it holds a colon. */
  predicate LabelledLine(s: string)
  {
    ':' in s
  }

  lemma EventLineLabelled(e: EventRec)
    ensures LabelledLine(EventLine(e))
  {
    var src := GetOr(e.source, "N/A");
    assert EventLine(e)[2 + |src|] == ':';
  }

  lemma SpreadLineLabelled(s: SpreadRec, pct: real -> string)
    requires s.varRate.Some?
    ensures LabelledLine(SpreadLine(s, pct))
  {
    var cd := Str(s.productCd);
    assert SpreadLine(s, pct)[2 + |cd|] == ':';
  }

  lemma SimilarLineLabelled(s: SimilarRec, pct: real -> string)
    requires s.varRate.Some?
    ensures LabelledLine(SimilarLine(s, pct))
  {
    var m := Str(s.month);
    assert SimilarLine(s, pct)[2 + |m|] == ':';
  }

  /**
   * The placeholder appears exactly for an empty list: entry lines carry a
   * colon and the placeholder does not.
   */
  lemma SectionPlaceholder<T>(items: seq<T>, line: T --> string)
    requires forall x :: x in items ==> line.requires(x)
    requires items != [] ==> LabelledLine(line(items[|items| - 1]))
    ensures Section(items, line) == NoneLine <==> items == []
  {
    if items != [] {
      var last := line(items[|items| - 1]);
      var k :| 0 <= k < |last| && last[k] == ':';
      var s := Lines(items, line);
      assert s[|s| - |last| + k] == ':';
      assert ':' !in NoneLine;
    }
  }

  /** The number of lines of a list section: one per entry, or one placeholder. */
  lemma {:induction false} LinesCount<T>(items: seq<T>, line: T --> string)
    requires forall x :: x in items ==> line.requires(x) && NewlineCount(line(x)) == 1
    ensures NewlineCount(Lines(items, line)) == |items|
  {
    if items != [] {
      LinesCount(items[..|items| - 1], line);
      NewlineCountAppend(Lines(items[..|items| - 1], line), line(items[|items| - 1]));
    }
  }

  function NewlineCount(s: string): nat
  {
    if s == [] then 0 else NewlineCount(s[..|s| - 1]) + (if s[|s| - 1] == '\n' then 1 else 0)
  }

  lemma {:induction false} NewlineCountAppend(a: string, b: string)
    ensures NewlineCount(a + b) == NewlineCount(a) + NewlineCount(b)
  {
    if b == [] {
      assert a + b == a;
    } else {
      assert (a + b)[..|a + b| - 1] == a + b[..|b| - 1];
      NewlineCountAppend(a, b[..|b| - 1]);
    }
  }

  /** `', '.join(f"{month}:{amount:.1f}" for each data point)`. */
  function JoinTrend(data: seq<TsRow>, fixed1: real -> string): string
  {
    if data == [] then ""
    else if |data| == 1 then data[0].month + ":" + fixed1(data[0].amount)
    else (JoinTrend(data[..|data| - 1], fixed1) + ", "
          + data[|data| - 1].month + ":" + fixed1(data[|data| - 1].amount))
  }

  /** The fixed text up to the event section: the target and the time series. */
  function Header(t: VarInfo, ts: TimeSeries, fixed1: real -> string, pct: real -> string): string
  {
    "[분석 대상]\n"
    + "  제품군: " + GetOr(t.productGrp, "N/A") + "\n"
    + "  제품코드: " + GetOr(t.productCd, "N/A") + "\n"
    + "  공정: " + GetOr(t.procCd, "N/A") + "\n"
    + "  원가요소: " + GetOr(t.ceCd, "N/A") + "\n"
    + "  차이유형: " + GetOr(t.varType, "N/A") + "\n"
    + "  변동금액: " + fixed1(GetOrZero(t.varAmt)) + "억원\n"
    + "  변동률: " + pct(GetOrZero(t.varRate)) + "\n"
    + "\n[증거 1: 시계열]\n"
    + "  최근 추이: " + JoinTrend(ts.data, fixed1) + "\n"
    + "  이동평균: " + fixed1(ts.avg) + "\n"
    + "  이탈도: " + fixed1(ts.deviation) + "%\n"
    + "\n[증거 2: 동시 발생 이벤트]\n"
  }

  const SpreadTitle := "\n[증거 3: 파급]\n"
  const SimilarTitle := "\n[증거 4: 과거 유사 사례]\n"
  const Footer := "\n[판단 요청]\n  1. 주요 원인\n  2. 일시적 vs 구조적\n  3. 주의 등급 (정상/관찰/경고/긴급)\n  4. 보고 요약 (1~2문장)\n"

  /** Appends one line per entry to `prompt`, or the placeholder line. */
  method AppendSection<T>(prompt: string, items: seq<T>, line: T --> string) returns (r: string)
    requires forall x :: x in items ==> line.requires(x)
    ensures r == prompt + Section(items, line)
  {
    r := prompt;
    if items != [] {
      for i := 0 to |items|
        invariant r == prompt + Lines(items[..i], line)
      {
        assert items[..i + 1][..i] == items[..i];
        r := r + line(items[i]);
      }
      assert items[..|items|] == items;
    } else {
      r := r + NoneLine;
    }
  }

  /**
   * The prompt for a package: the header, then the event, spread and
   * similar-case sections each under its title, then the fixed request.
   * None is the TypeError a null spread or similar-case rate raises.
   */
  method FormatForLlm(target: VarInfo, ts: TimeSeries, events: seq<EventRec>,
                      spread: seq<SpreadRec>, similar: seq<SimilarRec>,
                      fixed1: real -> string, pct: real -> string)
    returns (prompt: Option<string>)
    ensures prompt.None? <==> !RatesPresent(spread, similar)
    ensures prompt.Some? ==>
      RatesPresent(spread, similar)
      && prompt.value == Header(target, ts, fixed1, pct)
         + Section(events, EventLine)
         + SpreadTitle + Section(spread, (s: SpreadRec) requires s.varRate.Some? => SpreadLine(s, pct))
         + SimilarTitle + Section(similar, (s: SimilarRec) requires s.varRate.Some? => SimilarLine(s, pct))
         + Footer
  {
    var text := Header(target, ts, fixed1, pct);
    text := AppendSection(text, events, EventLine);
    text := text + SpreadTitle;
    for i := 0 to |spread|
      invariant forall k :: 0 <= k < i ==> spread[k].varRate.Some?
    {
      if spread[i].varRate.None? {
        return None;
      }
    }
    text := AppendSection(text, spread, (s: SpreadRec) requires s.varRate.Some? => SpreadLine(s, pct));
    text := text + SimilarTitle;
    for i := 0 to |similar|
      invariant forall k :: 0 <= k < i ==> similar[k].varRate.Some?
    {
      if similar[i].varRate.None? {
        return None;
      }
    }
    text := AppendSection(text, similar, (s: SimilarRec) requires s.varRate.Some? => SimilarLine(s, pct));
    text := text + Footer;
    prompt := Some(text);
  }

  /** An empty evidence list renders as the placeholder line, a non-empty one never does. */
  lemma EmptyListsShowPlaceholder(events: seq<EventRec>, spread: seq<SpreadRec>,
                                  similar: seq<SimilarRec>, pct: real -> string)
    requires RatesPresent(spread, similar)
    ensures Section(events, EventLine) == NoneLine <==> events == []
    ensures Section(spread, (s: SpreadRec) requires s.varRate.Some? => SpreadLine(s, pct)) == NoneLine <==> spread == []
    ensures Section(similar, (s: SimilarRec) requires s.varRate.Some? => SimilarLine(s, pct)) == NoneLine <==> similar == []
  {
    if events != [] { EventLineLabelled(events[|events| - 1]); }
    if spread != [] { SpreadLineLabelled(spread[|spread| - 1], pct); }
    if similar != [] { SimilarLineLabelled(similar[|similar| - 1], pct); }
    SectionPlaceholder(events, EventLine);
    SectionPlaceholder(spread, (s: SpreadRec) requires s.varRate.Some? => SpreadLine(s, pct));
    SectionPlaceholder(similar, (s: SimilarRec) requires s.varRate.Some? => SimilarLine(s, pct));
  }

  /** A null column prints as "None": a null product code heads its spread line, a null verdict reads "(판정: None)". */
  lemma NullColumnsPrintNone(s: SpreadRec, c: SimilarRec, pct: real -> string)
    requires s.varRate.Some? && s.productCd.None?
    requires c.varRate.Some? && c.classification.None?
    ensures SpreadLine(s, pct)[..8] == "  None: "
    ensures var line := SimilarLine(c, pct);
      line[|line| - 12..] == " (판정: None)\n"
  {
  }
}
