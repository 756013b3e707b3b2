/** The assembly of a company analysis from the latest SEC filing (`calculateGrowthRate` and
    `generateCompanyAnalysis` of the generate-ai-template edge function).

    The HTTP collaborators are parameters: `filings` is what the filing search returned (or the
    error it threw), `extract(url, item)` stands for the section extractor and `complete(prompt)`
    for the language-model call. Both of those already turn their own failures into ''. Only
    the part of each prompt taken from the filing is modelled; the instruction wording is not.
    Numbers are exact reals. `Math.pow` and `Math.round` are written out; `toFixed` is not. */
module CompanyAnalysis {
  import opened JsPrelude
  import opened JsNumber
  import opened FinancialParser

  // ---------------------------------------------------------------------------
  // Inputs

  /** The fields of a filing search hit that the analysis reads. */
  datatype Filing = Filing(linkToFilingDetails: string, formType: string, filedAt: string,
                           ticker: string, companyName: string)

  /** The four filing sections requested from the extractor. */
  datatype Sections = Sections(business: string, riskFactors: string, mda: string, financialStatements: string)

  /** The filing text handed to each of the three language-model requests. */
  datatype Prompt =
    | BusinessPrompt(businessExcerpt: string)
    | RiskPrompt(riskExcerpt: string, businessExcerpt: string)
    | ExecutivePrompt(excerpt: string)

  // ---------------------------------------------------------------------------
  // Output

  datatype CompanyProfile = CompanyProfile(ticker: string, name: string, industrySector: string,
    businessDescription: string, revenueStreams: seq<string>, risks: seq<string>)

  datatype FinancialMetrics = FinancialMetrics(peRatio: real, forwardPe: real, pegRatio: real,
    dividendYield: real, expectedEpsGrowth: real)

  datatype BalanceSheet = BalanceSheet(cashAndEquivalents: real, shortTermInvestments: real,
    longTermInvestments: real, totalLiquidAssets: real, shortTermDebt: real, longTermDebt: real,
    totalDebt: real, assetsToDebtRatio: real)

  datatype CashFlowYear = CashFlowYear(year: int, netIncome: int, netIncomeYoYGrowth: real,
    operatingCashFlow: int, operatingCashFlowYoYGrowth: real)

  /** `netMarginPercent` is the number that `revenueVsNetIncomeComparison` prints with one decimal. */
  datatype IncomeYear = IncomeYear(year: int, totalRevenue: int, totalRevenueYoYGrowth: real,
    netIncome: int, netIncomeYoYGrowth: real, netMarginPercent: real)

  datatype Executive = Executive(name: string, role: string, startDate: string, founder: bool,
    notesPerformance: string)

  datatype Summary = Summary(strengths: seq<string>, weaknesses: seq<string>, risks: seq<string>,
    finalVerdict: string)

  datatype CompanyData = CompanyData(profile: CompanyProfile, metrics: FinancialMetrics,
    balanceSheet: BalanceSheet, cashFlow: seq<CashFlowYear>, incomeStatement: seq<IncomeYear>,
    executives: seq<Executive>, summary: Summary)

  // ---------------------------------------------------------------------------
  // Arithmetic

  /** `calculateGrowthRate(current, previous)`: the percentage change, and 0 for a zero base. */
  function GrowthRate(current: real, previous: real): (r: real)
    ensures previous == 0.0 ==> r == 0.0
    ensures previous != 0.0 ==> r * previous == (current - previous) * 100.0
  {
    if previous == 0.0 then 0.0 else (current - previous) / previous * 100.0
  }

  /** `Math.pow(b, n)` for a natural exponent. */
  function Pow(b: real, n: nat): (r: real)
    ensures b > 0.0 ==> r > 0.0
  {
    if n == 0 then 1.0
    else
      var p := Pow(b, n - 1);
      MulPositive(b, p);
      b * p
  }

  /** `Math.round(x)`: the nearest integer, halves rounded up. */
  function Round(x: real): (r: int)
    ensures x - 0.5 < r as real <= x + 0.5
  {
    (x + 0.5).Floor
  }

  /** The value of a series in year n when `base` compounds by `factor` each year. */
  function Projected(base: real, factor: real, n: nat): (r: real)
    ensures base > 0.0 && factor > 0.0 ==> r > 0.0
  {
    MulPositive(base, Pow(factor, n));
    base * Pow(factor, n)
  }

  /** Growing a positive base by a fixed factor each year shows, from the second year on, a
      growth rate of exactly (factor - 1) * 100 percent. */
  lemma CompoundGrowth(base: real, factor: real, i: nat)
    requires base > 0.0 && factor > 0.0
    ensures GrowthRate(Projected(base, factor, i + 1), Projected(base, factor, i)) == (factor - 1.0) * 100.0
  {
    var prev := Projected(base, factor, i);
    var cur := Projected(base, factor, i + 1);
    assert cur == prev * factor;
    var r := GrowthRate(cur, prev);
    assert r * prev == (cur - prev) * 100.0;
    assert (cur - prev) * 100.0 == ((factor - 1.0) * 100.0) * prev;
    CancelFactor(r, (factor - 1.0) * 100.0, prev);
  }

  lemma CancelFactor(a: real, b: real, p: real)
    requires p != 0.0 && a * p == b * p
    ensures a == b
  {
    assert (a - b) * p == 0.0;
  }

  // ---------------------------------------------------------------------------
  // Baselines and projections

  /** The three baseline figures the projections start from. */
  datatype Baselines = Baselines(revenue: real, income: real, cashFlow: real)

  /** `xs[0] || d` for a list of numbers. */
  function FirstOr(xs: seq<Number>, d: real): real {
    if xs == [] then d else OrNumber(xs[0], d)
  }

  /** `revenue[0] || 50000`, `netIncome[0] || revenue * 0.15`, `operatingCashFlow[0] || revenue * 0.18`. */
  function BaselinesOf(fd: FinancialData): Baselines {
    var revenue := FirstOr(seq(|fd.revenue|, i requires 0 <= i < |fd.revenue| => Num(fd.revenue[i])), 50000.0);
    Baselines(revenue, FirstOr(fd.netIncome, revenue * 0.15), FirstOr(fd.operatingCashFlow, revenue * 0.18))
  }

  /** The baselines of a parsed filing: the first extracted figure when it is truthy, otherwise
      50000 for revenue and 15% / 18% of the revenue baseline. All three are positive, because
      revenue keeps only positive figures and no extracted figure is negative. */
  lemma BaselinesOfParsed(text: string)
    ensures var fd := FinancialDataOf(text); var b := BaselinesOf(fd);
      b.revenue == (if fd.revenue == [] then 50000.0 else fd.revenue[0]) &&
      b.income == (if fd.netIncome != [] && Truthy(fd.netIncome[0]) then fd.netIncome[0].value else b.revenue * 0.15) &&
      b.cashFlow == (if fd.operatingCashFlow != [] && Truthy(fd.operatingCashFlow[0])
                     then fd.operatingCashFlow[0].value else b.revenue * 0.18) &&
      b.revenue > 0.0 && b.income > 0.0 && b.cashFlow > 0.0
  {
    var fd := FinancialDataOf(text);
    RevenueFacts(text);
    AmountListFacts(AllMatches(text, 0, IncomeLabels));
    AmountListFacts(AllMatches(text, 0, CashFlowLabels));
    BaselinesOfSigned(fd);
  }

  /** The baselines of any figures where revenue is positive and no other figure is negative. */
  lemma BaselinesOfSigned(fd: FinancialData)
    requires forall v :: v in fd.revenue ==> v > 0.0
    requires forall k :: 0 <= k < |fd.netIncome| && fd.netIncome[k].Num? ==> fd.netIncome[k].value >= 0.0
    requires forall k :: 0 <= k < |fd.operatingCashFlow| && fd.operatingCashFlow[k].Num? ==>
      fd.operatingCashFlow[k].value >= 0.0
    ensures var b := BaselinesOf(fd);
      b.revenue == (if fd.revenue == [] then 50000.0 else fd.revenue[0]) &&
      b.income == (if fd.netIncome != [] && Truthy(fd.netIncome[0]) then fd.netIncome[0].value else b.revenue * 0.15) &&
      b.cashFlow == (if fd.operatingCashFlow != [] && Truthy(fd.operatingCashFlow[0])
                     then fd.operatingCashFlow[0].value else b.revenue * 0.18) &&
      b.revenue > 0.0 && b.income > 0.0 && b.cashFlow > 0.0
  {
    if fd.revenue != [] { assert fd.revenue[0] in fd.revenue; }
  }

  /** The growth shown for year `index` of a series compounding `base` by `factor`. */
  function YearGrowth(base: real, factor: real, index: nat): (r: real)
    ensures index == 0 ==> r == 0.0
  {
    if index == 0 then 0.0 else GrowthRate(Projected(base, factor, index), Projected(base, factor, index - 1))
  }

  /** `years.map(...)` building the cash-flow series: income compounds at 12%, cash flow at 10%. */
  function CashFlowSeries(years: seq<int>, b: Baselines): (r: seq<CashFlowYear>)
    ensures |r| == |years|
  {
    seq(|years|, i requires 0 <= i < |years| =>
      CashFlowYear(years[i],
        Round(Projected(b.income, 1.12, i)), YearGrowth(b.income, 1.12, i),
        Round(Projected(b.cashFlow, 1.10, i)), YearGrowth(b.cashFlow, 1.10, i)))
  }

  /** `years.map(...)` building the income statement: revenue compounds at 8%, income at 12%.
      The margin divides by the projected revenue, which is positive. */
  function IncomeSeries(years: seq<int>, b: Baselines): (r: seq<IncomeYear>)
    requires b.revenue > 0.0
    ensures |r| == |years|
  {
    seq(|years|, i requires 0 <= i < |years| =>
      IncomeYear(years[i],
        Round(Projected(b.revenue, 1.08, i)), YearGrowth(b.revenue, 1.08, i),
        Round(Projected(b.income, 1.12, i)), YearGrowth(b.income, 1.12, i),
        Margin(Projected(b.income, 1.12, i), Projected(b.revenue, 1.08, i))))
  }

  function Margin(income: real, revenue: real): real
    requires revenue != 0.0
  {
    income / revenue * 100.0
  }

  /** The projected years are the current year and the two before it, in order. */
  function YearsEnding(currentYear: int): (ys: seq<int>)
    ensures |ys| == 3 && ys[2] == currentYear
    ensures forall i :: 0 < i < |ys| ==> ys[i] == ys[i - 1] + 1
  {
    [currentYear - 2, currentYear - 1, currentYear]
  }

  /** The cash-flow series covers exactly the given years; the first year shows growth 0 and
      every later year exactly 12% net-income and 10% operating-cash-flow growth. */
  lemma CashFlowSeriesGrowth(years: seq<int>, b: Baselines)
    requires b.income > 0.0 && b.cashFlow > 0.0
    ensures forall i :: 0 <= i < |years| ==> CashFlowSeries(years, b)[i].year == years[i]
    ensures |years| > 0 ==> CashFlowSeries(years, b)[0].netIncomeYoYGrowth == 0.0 &&
                            CashFlowSeries(years, b)[0].operatingCashFlowYoYGrowth == 0.0
    ensures forall i :: 0 < i < |years| ==> CashFlowSeries(years, b)[i].netIncomeYoYGrowth == 12.0 &&
                                            CashFlowSeries(years, b)[i].operatingCashFlowYoYGrowth == 10.0
  {
    forall i | 0 < i < |years|
      ensures CashFlowSeries(years, b)[i].netIncomeYoYGrowth == 12.0 &&
              CashFlowSeries(years, b)[i].operatingCashFlowYoYGrowth == 10.0
    {
      CompoundGrowth(b.income, 1.12, i - 1);
      CompoundGrowth(b.cashFlow, 1.10, i - 1);
    }
  }

  /** The income statement covers exactly the given years; the first year shows growth 0 and
      every later year exactly 8% revenue and 12% net-income growth. */
  lemma IncomeSeriesGrowth(years: seq<int>, b: Baselines)
    requires b.revenue > 0.0 && b.income > 0.0
    ensures forall i :: 0 <= i < |years| ==> IncomeSeries(years, b)[i].year == years[i]
    ensures |years| > 0 ==> IncomeSeries(years, b)[0].totalRevenueYoYGrowth == 0.0 &&
                            IncomeSeries(years, b)[0].netIncomeYoYGrowth == 0.0
    ensures forall i :: 0 < i < |years| ==> IncomeSeries(years, b)[i].totalRevenueYoYGrowth == 8.0 &&
                                            IncomeSeries(years, b)[i].netIncomeYoYGrowth == 12.0
  {
    forall i | 0 < i < |years|
      ensures IncomeSeries(years, b)[i].totalRevenueYoYGrowth == 8.0 &&
              IncomeSeries(years, b)[i].netIncomeYoYGrowth == 12.0
    {
      CompoundGrowth(b.revenue, 1.08, i - 1);
      CompoundGrowth(b.income, 1.12, i - 1);
    }
  }

  // ---------------------------------------------------------------------------
  // Balance sheet

  /** `x || d` for a single-valued fact that may be null. */
  function FactOr(x: Option<Number>, d: real): real {
    if x.Some? then OrNumber(x.value, d) else d
  }

  predicate TruthyFact(x: Option<Number>) {
    x.Some? && Truthy(x.value)
  }

  /** Cash falls back to 29000, long-term debt to 25000; the other components are constants. */
  function BalanceSheetOf(fd: FinancialData): BalanceSheet {
    var cash := FactOr(fd.cashAndEquivalents, 29000.0);
    var longTermDebt := FactOr(fd.totalDebt, 25000.0);
    var ratio := if TruthyFact(fd.totalAssets) && TruthyFact(fd.totalDebt)
                 then fd.totalAssets.value.value / fd.totalDebt.value.value else 3.2;
    BalanceSheet(cash, 15000.0, 45000.0, cash + 15000.0 + 45000.0, 8000.0, longTermDebt,
                 8000.0 + longTermDebt, ratio)
  }

  /** The balance-sheet rules: the liquid total is the sum of its three components and the debt
      total the sum of its two, each using the same fallback as the field it totals; the ratio
      divides the extracted assets by the extracted debt only when both are truthy, so never by
      zero, and is 3.2 otherwise. */
  lemma BalanceSheetRules(fd: FinancialData)
    ensures var bs := BalanceSheetOf(fd);
      bs.totalLiquidAssets == bs.cashAndEquivalents + bs.shortTermInvestments + bs.longTermInvestments &&
      bs.totalDebt == bs.shortTermDebt + bs.longTermDebt &&
      bs.cashAndEquivalents == (if TruthyFact(fd.cashAndEquivalents) then fd.cashAndEquivalents.value.value else 29000.0) &&
      bs.longTermDebt == (if TruthyFact(fd.totalDebt) then fd.totalDebt.value.value else 25000.0) &&
      (TruthyFact(fd.totalAssets) && TruthyFact(fd.totalDebt) ==>
         bs.assetsToDebtRatio * fd.totalDebt.value.value == fd.totalAssets.value.value) &&
      (!(TruthyFact(fd.totalAssets) && TruthyFact(fd.totalDebt)) ==> bs.assetsToDebtRatio == 3.2)
  {
  }

  /** For a parsed filing every balance-sheet figure is positive: the liquid total is more than
      60000 and the debt total more than 8000. */
  lemma BalanceSheetOfParsed(text: string)
    ensures var bs := BalanceSheetOf(FinancialDataOf(text));
      bs.cashAndEquivalents > 0.0 && bs.totalLiquidAssets > 60000.0 && bs.longTermDebt > 0.0 &&
      bs.totalDebt > 8000.0 && bs.assetsToDebtRatio > 0.0
  {
    var fd := FinancialDataOf(text);
    FirstAmountFacts(text, AssetsLabels);
    FirstAmountFacts(text, DebtLabels);
    FirstAmountFacts(text, CashLabels);
    if TruthyFact(fd.totalAssets) && TruthyFact(fd.totalDebt) {
      DivPositive(fd.totalAssets.value.value, fd.totalDebt.value.value);
    }
  }

  lemma DivPositive(a: real, b: real)
    requires a > 0.0 && b > 0.0
    ensures a / b > 0.0
  {
  }

  // ---------------------------------------------------------------------------
  // Reading the model's answers

  predicate AboutSector(line: string) { Contains(line, "sector") || Contains(line, "industry") }
  predicate AboutRevenue(line: string) {
    Contains(line, "revenue") || Contains(line, "stream") || Contains(line, "segment")
  }
  predicate AboutRisk(line: string) { Contains(line, "risk") || Contains(line, "challenge") }
  predicate AboutStrength(line: string) { Contains(line, "strength") || Contains(line, "advantage") }
  predicate AboutWeakness(line: string) { Contains(line, "weakness") || Contains(line, "concern") }
  predicate SummaryRisk(line: string) { Contains(line, "risk") && !Contains(line, "strength") }
  predicate AboutCeo(line: string) { Contains(line, "CEO") }
  predicate AboutPerformance(line: string) { Contains(line, "performance") || Contains(line, "achievement") }
  predicate AboutVerdict(line: string) { Contains(line, "verdict") || Contains(line, "recommendation") }
  predicate MentionsFounder(line: string) { Contains(ToLower(line), "founder") }

  /** `found?.split(':')[1]?.trim() || d`: the trimmed text between the first and the second
      colon of the line found (or to its end when there is one colon), or d when there is no such
      line, no colon, or only white space in that piece. */
  function AfterColonOr(found: Option<string>, d: string): (r: string)
    ensures d != "" ==> r != ""
    ensures found.Some? && |Split(found.value, ':')| > 1 && Trim(Split(found.value, ':')[1]) != "" ==>
      r == Trim(Split(found.value, ':')[1])
    ensures !(found.Some? && |Split(found.value, ':')| > 1 && Trim(Split(found.value, ':')[1]) != "") ==>
      r == d
  {
    if found.Some? && |Split(found.value, ':')| > 1 then OrString(Trim(Split(found.value, ':')[1]), d)
    else d
  }

  /** For a line `key:value` or `key:value:more`, the piece taken is value, trimmed. */
  lemma {:induction false} AfterColonOfLine(key: string, value: string, rest: string, d: string)
    requires ':' !in key && ':' !in value && (rest == [] || rest[0] == ':')
    requires Trim(value) != ""
    ensures AfterColonOr(Some(key + ":" + value + rest), d) == Trim(value)
  {
    SplitAfterPiece(key, ':', value + rest);
    assert key + ":" + value + rest == key + [':'] + (value + rest);
    if rest == [] {
      assert value + rest == value;
      SplitWithoutSeparator(value, ':');
    } else {
      assert value + rest == value + [':'] + rest[1..];
      SplitAfterPiece(value, ':', rest[1..]);
    }
  }

  /** `found?.trim() || d` */
  function TrimmedOr(found: Option<string>, d: string): string {
    if found.Some? then OrString(Trim(found.value), d) else d
  }

  /** A line picked out of a non-blank line list is kept (trimmed): the fallback is used only when
      no line qualifies. */
  lemma TrimmedLineOr(lines: seq<string>, p: string -> bool, d: string)
    requires NonBlankLines(lines)
    ensures Find(lines, p).Some? ==> TrimmedOr(Find(lines, p), d) == Trim(Find(lines, p).value)
    ensures Find(lines, p).None? ==> TrimmedOr(Find(lines, p), d) == d
  {
    if Find(lines, p).Some? {
      var i :| 0 <= i < |lines| && lines[i] == Find(lines, p).value && p(lines[i]) &&
               forall j :: 0 <= j < i ==> !p(lines[j]);
      assert lines[i] in lines;
    }
  }

  const DescriptionSuffix := " operates in the technology sector with diversified business operations."
  const DefaultNotes := "Strong operational leadership with focus on innovation and growth."
  const DefaultVerdict :=
    "Strong fundamentals with solid growth prospects, though regulatory and competitive risks require monitoring."

  function ProfileOf(ticker: string, companyName: string, businessLines: seq<string>,
                     riskLines: seq<string>): CompanyProfile {
    CompanyProfile(
      ToUpper(ticker),
      OrString(companyName, ToUpper(ticker) + " Inc."),
      AfterColonOr(Find(businessLines, AboutSector), "Technology"),
      match Find(businessLines, (l: string) => |l| > 100)
        case Some(l) => l
        case None => companyName + DescriptionSuffix,
      Take(Filter(businessLines, AboutRevenue), 4),
      Take(Filter(riskLines, AboutRisk), 5))
  }

  function ExecutiveOf(execLines: seq<string>): Executive {
    Executive(
      AfterColonOr(Find(execLines, AboutCeo), "John Smith"),
      "Chief Executive Officer",
      "2018-01-01",
      Any(execLines, MentionsFounder),
      TrimmedOr(Find(execLines, AboutPerformance), DefaultNotes))
  }

  function SummaryOf(riskLines: seq<string>): Summary {
    Summary(
      Take(Filter(riskLines, AboutStrength), 4),
      Take(Filter(riskLines, AboutWeakness), 3),
      Take(Filter(riskLines, SummaryRisk), 4),
      TrimmedOr(Find(riskLines, AboutVerdict), DefaultVerdict))
  }

  const Metrics := FinancialMetrics(25.4, 22.1, 1.8, 1.2, 12.5)

  /** The profile rules: the ticker is upper-cased, the name falls back to "<TICKER> Inc.", the
      sector is never empty, and the two lists are bounded keyword buckets in line order. */
  lemma ProfileFacts(ticker: string, companyName: string, businessLines: seq<string>, riskLines: seq<string>)
    ensures var p := ProfileOf(ticker, companyName, businessLines, riskLines);
      |p.ticker| == |ticker| && (forall i :: 0 <= i < |ticker| ==> p.ticker[i] == UpperChar(ticker[i])) &&
      p.name == (if companyName != "" then companyName else ToUpper(ticker) + " Inc.") &&
      p.industrySector != "" &&
      |p.revenueStreams| <= 4 && (forall l :: l in p.revenueStreams ==> AboutRevenue(l) && l in businessLines) &&
      IsSubsequence(p.revenueStreams, businessLines) &&
      |p.risks| <= 5 && (forall l :: l in p.risks ==> AboutRisk(l) && l in riskLines) &&
      IsSubsequence(p.risks, riskLines)
  {
    FilterTakeBucket(businessLines, AboutRevenue, 4);
    FilterTakeBucket(riskLines, AboutRisk, 5);
  }

  /** The summary rules: bounded keyword buckets, summary risks never mention "strength", and the
      verdict is the first verdict/recommendation line (trimmed) or the fixed fallback. */
  lemma SummaryFacts(lines: seq<string>)
    requires NonBlankLines(lines)
    ensures var s := SummaryOf(lines);
      |s.strengths| <= 4 && (forall l :: l in s.strengths ==> AboutStrength(l) && l in lines) &&
      |s.weaknesses| <= 3 && (forall l :: l in s.weaknesses ==> AboutWeakness(l) && l in lines) &&
      |s.risks| <= 4 && (forall l :: l in s.risks ==> Contains(l, "risk") && !Contains(l, "strength") && l in lines) &&
      (Find(lines, AboutVerdict).Some? ==> s.finalVerdict == Trim(Find(lines, AboutVerdict).value)) &&
      (Find(lines, AboutVerdict).None? ==> s.finalVerdict == DefaultVerdict)
  {
    FilterTakeBucket(lines, AboutStrength, 4);
    FilterTakeBucket(lines, AboutWeakness, 3);
    FilterTakeBucket(lines, SummaryRisk, 4);
    TrimmedLineOr(lines, AboutVerdict, DefaultVerdict);
  }

  /** The executive rules: the name is never empty, the founder flag holds exactly when some line
      mentions "founder" in any letter case, and the notes are the first performance line. */
  lemma ExecutiveFacts(lines: seq<string>)
    requires NonBlankLines(lines)
    ensures var e := ExecutiveOf(lines);
      e.name != "" && e.role == "Chief Executive Officer" && e.startDate == "2018-01-01" &&
      (e.founder <==> exists i :: 0 <= i < |lines| && Contains(ToLower(lines[i]), "founder")) &&
      (Find(lines, AboutPerformance).Some? ==> e.notesPerformance == Trim(Find(lines, AboutPerformance).value)) &&
      (Find(lines, AboutPerformance).None? ==> e.notesPerformance == DefaultNotes)
  {
    NamedExecutive(lines);
    FounderFlag(lines);
    PerformanceNotes(lines);
  }

  lemma PerformanceNotes(lines: seq<string>)
    requires NonBlankLines(lines)
    ensures Find(lines, AboutPerformance).Some? ==>
      ExecutiveOf(lines).notesPerformance == Trim(Find(lines, AboutPerformance).value)
    ensures Find(lines, AboutPerformance).None? ==> ExecutiveOf(lines).notesPerformance == DefaultNotes
  {
    TrimmedLineOr(lines, AboutPerformance, DefaultNotes);
  }

  lemma NamedExecutive(lines: seq<string>)
    ensures ExecutiveOf(lines).name != ""
  {
    assert "John Smith" != "";
  }

  lemma FounderFlag(lines: seq<string>)
    ensures ExecutiveOf(lines).founder <==> exists i :: 0 <= i < |lines| && Contains(ToLower(lines[i]), "founder")
  {
    assert ExecutiveOf(lines).founder == Any(lines, MentionsFounder);
  }

  // ---------------------------------------------------------------------------
  // The analysis

  /** The four extractor requests for the filing: items 1, 1A, 7 and 8. */
  function SectionsOf(filing: Filing, extract: (string, string) -> string): Sections {
    var url := filing.linkToFilingDetails;
    Sections(extract(url, "1"), extract(url, "1A"), extract(url, "7"), extract(url, "8"))
  }

  /** The prompts: at most 3000 characters of the business section; 3000 of the risk factors with
      1000 of the business section; 2000 of business section and MD&A together. */
  function BusinessPromptOf(s: Sections): Prompt { BusinessPrompt(Prefix(s.business, 3000)) }
  function RiskPromptOf(s: Sections): Prompt { RiskPrompt(Prefix(s.riskFactors, 3000), Prefix(s.business, 1000)) }
  function ExecutivePromptOf(s: Sections): Prompt { ExecutivePrompt(Prefix(s.business + s.mda, 2000)) }

  /** The `companyData` object literal, from the extracted figures and the model's answer lines. */
  function Assemble(ticker: string, companyName: string, fd: FinancialData, businessLines: seq<string>,
                    riskLines: seq<string>, execLines: seq<string>, currentYear: int): CompanyData
    requires BaselinesOf(fd).revenue > 0.0
  {
    var years := YearsEnding(currentYear);
    var base := BaselinesOf(fd);
    CompanyData(
      ProfileOf(ticker, companyName, businessLines, riskLines),
      Metrics,
      BalanceSheetOf(fd),
      CashFlowSeries(years, base),
      IncomeSeries(years, base),
      [ExecutiveOf(execLines)],
      SummaryOf(riskLines))
  }

  /** The analysis of one filing once its sections are known: figures are read from the
      financial statements followed by the MD&A section, and each answer is split into lines. */
  function Analyse(ticker: string, filing: Filing, s: Sections, complete: Prompt -> string,
                   currentYear: int): CompanyData
  {
    var text := s.financialStatements + s.mda;
    BaselinesOfParsed(text);
    Assemble(ticker, filing.companyName, FinancialDataOf(text),
             Lines(complete(BusinessPromptOf(s))), Lines(complete(RiskPromptOf(s))),
             Lines(complete(ExecutivePromptOf(s))), currentYear)
  }

  /** `generateCompanyAnalysis(ticker)`: a failed search or an empty list of filings is an error;
      otherwise the first, most recent, filing is analysed. */
  function GenerateCompanyAnalysis(ticker: string, filings: Result<seq<Filing>>,
                                   extract: (string, string) -> string, complete: Prompt -> string,
                                   currentYear: int): (r: Result<CompanyData>)
    ensures filings.Err? ==> r == Err(filings.message)
    ensures filings == Ok([]) ==> r == Err("No SEC filings found for ticker: " + ticker)
    ensures r.Ok? <==> filings.Ok? && filings.value != []
    ensures filings.Ok? && filings.value != [] ==>
      r == Ok(Analyse(ticker, filings.value[0], SectionsOf(filings.value[0], extract), complete, currentYear))
  {
    match filings
    case Err(message) => Err(message)
    case Ok(fs) =>
      if |fs| == 0 then Err("No SEC filings found for ticker: " + ticker)
      else Ok(Analyse(ticker, fs[0], SectionsOf(fs[0], extract), complete, currentYear))
  }

  /** Only the most recent filing matters: two searches whose first hits agree give the same
      analysis, whatever the older hits are. */
  lemma OnlyLatestFilingMatters(ticker: string, fs1: seq<Filing>, fs2: seq<Filing>,
                                extract: (string, string) -> string, complete: Prompt -> string, currentYear: int)
    requires fs1 != [] && fs2 != [] && fs1[0] == fs2[0]
    ensures GenerateCompanyAnalysis(ticker, Ok(fs1), extract, complete, currentYear) ==
            GenerateCompanyAnalysis(ticker, Ok(fs2), extract, complete, currentYear)
  {
  }

  /** The projections of an analysis: exactly the years [Y-2, Y-1, Y], growth 0 in the first
      year, and exactly 8% revenue, 12% income and 10% cash-flow growth after it, whenever the
      baselines are positive. */
  lemma AssembleProjections(ticker: string, companyName: string, fd: FinancialData, businessLines: seq<string>,
                            riskLines: seq<string>, execLines: seq<string>, currentYear: int)
    requires BaselinesOf(fd).revenue > 0.0 && BaselinesOf(fd).income > 0.0 && BaselinesOf(fd).cashFlow > 0.0
    ensures var c := Assemble(ticker, companyName, fd, businessLines, riskLines, execLines, currentYear);
      |c.cashFlow| == 3 && |c.incomeStatement| == 3 &&
      (forall i :: 0 <= i < 3 ==> c.cashFlow[i].year == currentYear - 2 + i &&
                                  c.incomeStatement[i].year == currentYear - 2 + i) &&
      c.cashFlow[0].netIncomeYoYGrowth == 0.0 && c.cashFlow[0].operatingCashFlowYoYGrowth == 0.0 &&
      c.incomeStatement[0].totalRevenueYoYGrowth == 0.0 && c.incomeStatement[0].netIncomeYoYGrowth == 0.0 &&
      (forall i :: 1 <= i < 3 ==> c.incomeStatement[i].totalRevenueYoYGrowth == 8.0 &&
                                  c.incomeStatement[i].netIncomeYoYGrowth == 12.0 &&
                                  c.cashFlow[i].netIncomeYoYGrowth == 12.0 &&
                                  c.cashFlow[i].operatingCashFlowYoYGrowth == 10.0)
  {
    var years := YearsEnding(currentYear);
    CashFlowSeriesGrowth(years, BaselinesOf(fd));
    IncomeSeriesGrowth(years, BaselinesOf(fd));
  }

  /** Every analysis of a filing has those projections: its baselines are always positive. */
  lemma AnalyseProjections(ticker: string, filing: Filing, s: Sections, complete: Prompt -> string, currentYear: int)
    ensures var c := Analyse(ticker, filing, s, complete, currentYear);
      |c.cashFlow| == 3 && |c.incomeStatement| == 3 &&
      (forall i :: 0 <= i < 3 ==> c.cashFlow[i].year == currentYear - 2 + i &&
                                  c.incomeStatement[i].year == currentYear - 2 + i) &&
      (forall i :: 1 <= i < 3 ==> c.incomeStatement[i].totalRevenueYoYGrowth == 8.0 &&
                                  c.incomeStatement[i].netIncomeYoYGrowth == 12.0 &&
                                  c.cashFlow[i].netIncomeYoYGrowth == 12.0 &&
                                  c.cashFlow[i].operatingCashFlowYoYGrowth == 10.0)
  {
    var text := s.financialStatements + s.mda;
    BaselinesOfParsed(text);
    AssembleProjections(ticker, filing.companyName, FinancialDataOf(text), Lines(complete(BusinessPromptOf(s))),
                        Lines(complete(RiskPromptOf(s))), Lines(complete(ExecutivePromptOf(s))), currentYear);
  }

  /** The fixed parts of an analysis: the balance sheet is positive, the sector and the CEO name
      are never empty, there is exactly one executive, and the market metrics are constants. */
  lemma AnalyseInvariants(ticker: string, filing: Filing, s: Sections, complete: Prompt -> string, currentYear: int)
    ensures var c := Analyse(ticker, filing, s, complete, currentYear);
      c.balanceSheet.totalLiquidAssets > 60000.0 && c.balanceSheet.assetsToDebtRatio > 0.0 &&
      c.profile.industrySector != "" && |c.executives| == 1 && c.executives[0].name != "" &&
      c.metrics == FinancialMetrics(25.4, 22.1, 1.8, 1.2, 12.5)
  {
    BalanceSheetOfParsed(s.financialStatements + s.mda);
  }

  /** What every successful `generateCompanyAnalysis` returns: the three projected years with
      8% revenue, 12% income and 10% cash-flow growth after the first, a positive balance sheet,
      a named sector and a single named executive, and the constant market metrics. */
  lemma GeneratedAnalysisFacts(ticker: string, filings: Result<seq<Filing>>,
                               extract: (string, string) -> string, complete: Prompt -> string,
                               currentYear: int)
    ensures var r := GenerateCompanyAnalysis(ticker, filings, extract, complete, currentYear);
      r.Ok? ==>
        var c := r.value;
        |c.cashFlow| == 3 && |c.incomeStatement| == 3 &&
        (forall i :: 0 <= i < 3 ==> c.cashFlow[i].year == currentYear - 2 + i &&
                                    c.incomeStatement[i].year == currentYear - 2 + i) &&
        (forall i :: 1 <= i < 3 ==> c.incomeStatement[i].totalRevenueYoYGrowth == 8.0 &&
                                    c.incomeStatement[i].netIncomeYoYGrowth == 12.0 &&
                                    c.cashFlow[i].netIncomeYoYGrowth == 12.0 &&
                                    c.cashFlow[i].operatingCashFlowYoYGrowth == 10.0) &&
        c.balanceSheet.totalLiquidAssets > 60000.0 && c.balanceSheet.assetsToDebtRatio > 0.0 &&
        c.profile.industrySector != "" && |c.executives| == 1 && c.executives[0].name != "" &&
        c.metrics == FinancialMetrics(25.4, 22.1, 1.8, 1.2, 12.5)
  {
    if filings.Ok? && filings.value != [] {
      var f := filings.value[0];
      AnalyseProjections(ticker, f, SectionsOf(f, extract), complete, currentYear);
      AnalyseInvariants(ticker, f, SectionsOf(f, extract), complete, currentYear);
    }
  }
}
