/** The template viewer page (src/components/templates/TemplateViewer.tsx): its ratio and growth
    calculators, which guard every division and measure growth against the absolute value of the
    earlier year, and the two handlers that load and save a template. */
module TemplateViewer {
  import opened JsPrelude
  import opened JsNumber
  import opened TemplateData

  // ---------------------------------------------------------------------------
  // Calculators

  datatype Ratios = Ratios(totalCashInvestments: real, totalDebt: real, debtToAssetsRatio: real,
                           currentRatio: real, netCashDebt: real)

  /** `calculateRatios`. */
  function ViewerRatios(b: BalanceInputs): Ratios {
    var totalCashInvestments := b.cash + b.shortTermInvestments + b.longTermInvestments;
    var totalDebt := b.shortTermDebt + b.longTermDebt;
    Ratios(totalCashInvestments, totalDebt,
      if b.totalAssets > 0.0 then totalDebt / b.totalAssets * 100.0 else 0.0,
      if b.currentLiabilities > 0.0 then b.currentAssets / b.currentLiabilities else 0.0,
      totalCashInvestments - totalDebt)
  }

  /** The ratio rules: the totals are component sums and the net position their difference;
      debt-to-assets is the debt as a percentage of positive total assets and 0 otherwise; the
      current ratio is assets over positive liabilities and 0 otherwise. */
  lemma ViewerRatiosFacts(b: BalanceInputs)
    ensures var r := ViewerRatios(b);
      r.totalCashInvestments == b.cash + b.shortTermInvestments + b.longTermInvestments &&
      r.totalDebt == b.shortTermDebt + b.longTermDebt &&
      r.netCashDebt == r.totalCashInvestments - r.totalDebt &&
      (b.totalAssets > 0.0 ==> r.debtToAssetsRatio * b.totalAssets == r.totalDebt * 100.0) &&
      (b.totalAssets <= 0.0 ==> r.debtToAssetsRatio == 0.0) &&
      (b.currentLiabilities > 0.0 ==> r.currentRatio * b.currentLiabilities == b.currentAssets) &&
      (b.currentLiabilities <= 0.0 ==> r.currentRatio == 0.0)
  {
  }

  /** No liabilities entered shows the current ratio as Weak, and no assets entered shows the
      debt as Low Risk, whatever the other fields hold. */
  lemma ViewerEmptyDenominatorBands(b: BalanceInputs)
    ensures b.currentLiabilities <= 0.0 ==> LiquidityBandOf(ViewerRatios(b).currentRatio) == Weak
    ensures b.totalAssets <= 0.0 ==> DebtBandOf(ViewerRatios(b).debtToAssetsRatio) == LowRisk
  {
  }

  /** Content mixing a JSON number with a string, such as
      `{"totalAssets": 500, "shortTermDebt": "100"}`: the number is read as it stands, and 100
      of debt against 500 of assets is 20%, Moderate. */
  lemma MixedContentRatios(v: Value)
    requires FieldValue(v, "totalAssets") == Some(NumberValue(500.0))
    requires FieldValue(v, "shortTermDebt") == Some(Text("100"))
    requires FieldValue(v, "cashEquivalents").None? && FieldValue(v, "shortTermInvestments").None? &&
             FieldValue(v, "longTermInvestments").None? && FieldValue(v, "longTermDebt").None? &&
             FieldValue(v, "currentAssets").None? && FieldValue(v, "currentLiabilities").None?
    ensures ViewerRatios(BalanceInputsOf(v)).debtToAssetsRatio == 20.0
    ensures DebtBandOf(ViewerRatios(BalanceInputsOf(v)).debtToAssetsRatio) == Moderate
  {
    DigitsParse("100", 100);
    assert BalanceInputsOf(v) == BalanceInputs(0.0, 0.0, 0.0, 100.0, 0.0, 500.0, 0.0, 0.0);
  }

  /** Such content has no `basicInfo` part, so the whole object is shown. */
  lemma MixedContentShownWhole()
    ensures var v := Object(map["totalAssets" := NumberValue(500.0), "shortTermDebt" := Text("100")]);
      SelectContent(v) == Some(v)
  {
  }

  /** An array holding the string "500" reads as 500. */
  lemma ArrayFieldReadsFirstItem()
    ensures NumberField(Object(map["totalAssets" := ArrayValue([Text("500")])]), "totalAssets") == 500.0
  {
    DigitsParse("500", 500);
  }

  /** A three-digit string such as "100" or "500" parses to its value. */
  lemma DigitsParse(s: string, n: nat)
    requires |s| == 3 && AllDigits(s) && n == 100 * DigitValue(s[0]) + 10 * DigitValue(s[1]) + DigitValue(s[2])
    ensures ParseFloat(s) == Num(n as real)
  {
    assert DigitsValue(s) == n by {
      assert s[..2][..1] == s[..1] && s[..1][..0] == [];
      assert DigitsValue(s[..1]) == DigitValue(s[0]);
      assert DigitsValue(s[..2]) == 10 * DigitValue(s[0]) + DigitValue(s[1]);
    }
    ParseFloatDigitsThenJunk(s, "");
    assert s + "" == s;
  }

  function Abs(x: real): (r: real)
    ensures r >= 0.0 && (r == x || r == -x)
  {
    if x < 0.0 then -x else x
  }

  /** `prev !== 0 ? ((cur - prev) / Math.abs(prev)) * 100 : 0` */
  function ViewerGrowth(current: real, previous: real): (r: real)
    ensures previous == 0.0 ==> r == 0.0
    ensures previous != 0.0 ==> r * Abs(previous) == (current - previous) * 100.0
  {
    if previous != 0.0 then (current - previous) / Abs(previous) * 100.0 else 0.0
  }

  /** Dividing by the absolute value makes the sign of the growth the sign of the change, even
      when the earlier year is negative: the page shows green exactly when the figure did not
      fall. */
  lemma ViewerGrowthSign(current: real, previous: real)
    requires previous != 0.0
    ensures ViewerGrowth(current, previous) > 0.0 <==> current > previous
    ensures ViewerGrowth(current, previous) == 0.0 <==> current == previous
    ensures ViewerGrowth(current, previous) >= 0.0 <==> current >= previous
  {
    var r := ViewerGrowth(current, previous);
    var a := Abs(previous);
    assert r * a == (current - previous) * 100.0;
    if r > 0.0 { MulPositive(r, a); }
    if r < 0.0 { MulPositive(-r, a); }
  }

  datatype CashFlowMetrics = CashFlowMetrics(fcf: Years, ocfGrowth2024: real, ocfGrowth2025: real,
    niGrowth2024: real, niGrowth2025: real, fcfGrowth2024: real, fcfGrowth2025: real)

  /** `calculateCashFlowMetrics`. */
  function ViewerCashFlowMetrics(c: CashFlowInputs): CashFlowMetrics {
    var fcf := FreeCashFlow(c);
    CashFlowMetrics(fcf,
      ViewerGrowth(c.operatingCashFlow.y2024, c.operatingCashFlow.y2023),
      ViewerGrowth(c.operatingCashFlow.y2025, c.operatingCashFlow.y2024),
      ViewerGrowth(c.netIncome.y2024, c.netIncome.y2023),
      ViewerGrowth(c.netIncome.y2025, c.netIncome.y2024),
      ViewerGrowth(fcf.y2024, fcf.y2023),
      ViewerGrowth(fcf.y2025, fcf.y2024))
  }

  datatype RevenueMetrics = RevenueMetrics(revGrowth2024: real, revGrowth2025: real,
                                           niGrowth2024: real, niGrowth2025: real)

  /** `calculateRevenueMetrics`. */
  function ViewerRevenueMetrics(r: RevenueInputs): RevenueMetrics {
    RevenueMetrics(ViewerGrowth(r.revenue.y2024, r.revenue.y2023), ViewerGrowth(r.revenue.y2025, r.revenue.y2024),
                   ViewerGrowth(r.netIncome.y2024, r.netIncome.y2023), ViewerGrowth(r.netIncome.y2025, r.netIncome.y2024))
  }

  /** Free cash flow is operating cash flow minus capex, and each growth figure the cash-flow
      table shows is non-negative exactly when the figure did not fall (or the earlier year is 0). */
  lemma ViewerCashFlowFacts(c: CashFlowInputs)
    ensures var m := ViewerCashFlowMetrics(c);
      m.fcf.y2023 == c.operatingCashFlow.y2023 - c.capex.y2023 &&
      m.fcf.y2024 == c.operatingCashFlow.y2024 - c.capex.y2024 &&
      m.fcf.y2025 == c.operatingCashFlow.y2025 - c.capex.y2025 &&
      (m.ocfGrowth2024 >= 0.0 <==> c.operatingCashFlow.y2023 == 0.0 || c.operatingCashFlow.y2024 >= c.operatingCashFlow.y2023) &&
      (m.ocfGrowth2025 >= 0.0 <==> c.operatingCashFlow.y2024 == 0.0 || c.operatingCashFlow.y2025 >= c.operatingCashFlow.y2024) &&
      (m.niGrowth2024 >= 0.0 <==> c.netIncome.y2023 == 0.0 || c.netIncome.y2024 >= c.netIncome.y2023) &&
      (m.niGrowth2025 >= 0.0 <==> c.netIncome.y2024 == 0.0 || c.netIncome.y2025 >= c.netIncome.y2024) &&
      (m.fcfGrowth2024 >= 0.0 <==> m.fcf.y2023 == 0.0 || m.fcf.y2024 >= m.fcf.y2023) &&
      (m.fcfGrowth2025 >= 0.0 <==> m.fcf.y2024 == 0.0 || m.fcf.y2025 >= m.fcf.y2024)
  {
    var m := ViewerCashFlowMetrics(c);
    GrowthToneIff(c.operatingCashFlow.y2024, c.operatingCashFlow.y2023);
    GrowthToneIff(c.operatingCashFlow.y2025, c.operatingCashFlow.y2024);
    GrowthToneIff(c.netIncome.y2024, c.netIncome.y2023);
    GrowthToneIff(c.netIncome.y2025, c.netIncome.y2024);
    GrowthToneIff(m.fcf.y2024, m.fcf.y2023);
    GrowthToneIff(m.fcf.y2025, m.fcf.y2024);
  }

  /** The same tone rule for the income-statement table. */
  lemma ViewerRevenueFacts(r: RevenueInputs)
    ensures var m := ViewerRevenueMetrics(r);
      (m.revGrowth2024 >= 0.0 <==> r.revenue.y2023 == 0.0 || r.revenue.y2024 >= r.revenue.y2023) &&
      (m.revGrowth2025 >= 0.0 <==> r.revenue.y2024 == 0.0 || r.revenue.y2025 >= r.revenue.y2024) &&
      (m.niGrowth2024 >= 0.0 <==> r.netIncome.y2023 == 0.0 || r.netIncome.y2024 >= r.netIncome.y2023) &&
      (m.niGrowth2025 >= 0.0 <==> r.netIncome.y2024 == 0.0 || r.netIncome.y2025 >= r.netIncome.y2024)
  {
    GrowthToneIff(r.revenue.y2024, r.revenue.y2023);
    GrowthToneIff(r.revenue.y2025, r.revenue.y2024);
    GrowthToneIff(r.netIncome.y2024, r.netIncome.y2023);
    GrowthToneIff(r.netIncome.y2025, r.netIncome.y2024);
  }

  lemma GrowthToneIff(current: real, previous: real)
    ensures ViewerGrowth(current, previous) >= 0.0 <==> previous == 0.0 || current >= previous
  {
    if previous != 0.0 { ViewerGrowthSign(current, previous); }
  }

  // ---------------------------------------------------------------------------
  // Loading and saving

  /** A row of the templates table, as far as the page reads it. */
  datatype Row = Row(id: string, title: string, ticker: Option<string>, content: string)

  /** The columns `handleSave` writes (besides `updated_at`, a clock reading). The title and
      the ticker are whatever `||` picks, so they can be any JSON value the data holds. */
  datatype Update = Update(id: string, content: Value, title: Value, ticker: Value)

  /** The template data a parsed content shows: its `basicInfo` part when that is truthy,
      otherwise the whole value. Reading `basicInfo` of null throws, so null shows nothing. */
  function SelectContent(parsed: Value): (v: Option<Value>)
    ensures parsed.Null? <==> v.None?
    ensures parsed.Object? && "basicInfo" in parsed.fields && TruthyValue(parsed.fields["basicInfo"]) ==>
      v == Some(parsed.fields["basicInfo"])
    ensures !parsed.Null? && !(parsed.Object? && "basicInfo" in parsed.fields &&
                               TruthyValue(parsed.fields["basicInfo"])) ==>
      v == Some(parsed)
  {
    if parsed.Null? then None
    else if parsed.Object? && "basicInfo" in parsed.fields && TruthyValue(parsed.fields["basicInfo"])
    then Some(parsed.fields["basicInfo"]) else Some(parsed)
  }

  /** What the inner `try` of `fetchTemplate` yields for a non-empty content: the data to show,
      or None when `JSON.parse` (here `decode`) throws or reading the parsed value throws. */
  function DecodeContent(content: string, decode: string -> Option<Value>): (r: Option<Value>)
    ensures r.None? <==> decode(content).None? || decode(content).value.Null?
    ensures r.Some? ==> r == SelectContent(decode(content).value)
  {
    match decode(content)
    case None => None
    case Some(parsed) => SelectContent(parsed)
  }

  /** `a || d` for a field read `a`: the field when it is truthy, d otherwise. */
  function OrValue(a: Option<Value>, d: Value): (r: Value)
    ensures a.Some? && TruthyValue(a.value) ==> r == a.value
    ensures !(a.Some? && TruthyValue(a.value)) ==> r == d
  {
    if a.Some? && TruthyValue(a.value) then a.value else d
  }

  /** `template.ticker`: the row's ticker, or null. */
  function RowTicker(row: Row): (t: Value)
    ensures row.ticker.Some? ==> t == Text(row.ticker.value)
    ensures row.ticker.None? ==> t == Null
  {
    if row.ticker.Some? then Text(row.ticker.value) else Null
  }

  /** The update `handleSave` sends: the current data, with the company name and ticker taken
      from it when they are truthy (a non-empty string, a non-zero number, `true`, an array or
      an object) and otherwise kept from the loaded row. */
  function UpdateOf(data: Value, row: Row): (u: Update)
    ensures u.id == row.id && u.content == data
    ensures FieldValue(data, "companyName").Some? && TruthyValue(FieldValue(data, "companyName").value) ==>
      u.title == FieldValue(data, "companyName").value
    ensures !(FieldValue(data, "companyName").Some? && TruthyValue(FieldValue(data, "companyName").value)) ==>
      u.title == Text(row.title)
    ensures FieldValue(data, "tickerSymbol").Some? && TruthyValue(FieldValue(data, "tickerSymbol").value) ==>
      u.ticker == FieldValue(data, "tickerSymbol").value
    ensures !(FieldValue(data, "tickerSymbol").Some? && TruthyValue(FieldValue(data, "tickerSymbol").value)) ==>
      u.ticker == RowTicker(row)
  {
    Update(row.id, data, OrValue(FieldValue(data, "companyName"), Text(row.title)),
      OrValue(FieldValue(data, "tickerSymbol"), RowTicker(row)))
  }

  /** The page's state. */
  class ViewerPage {
    var template: Option<Row>
    var templateData: Value
    var loading: bool
    var error: string
    var editMode: bool
    var saving: bool
    /** The updates sent to the templates table, oldest first. */
    var updates: seq<Update>

    /** The first render: no row, a blank form, loading. */
    constructor ()
      ensures template == None && templateData == ToValue(Blank()) && loading && error == ""
      ensures !editMode && !saving && updates == []
    {
      template := None;
      templateData := ToValue(Blank());
      loading := true;
      error := "";
      editMode := false;
      saving := false;
      updates := [];
    }

    /** `fetchTemplate`: `response` is the row the query returned or its error, and `decode`
        stands for `JSON.parse` (None when it throws). */
    method FetchTemplate(response: Result<Row>, decode: string -> Option<Value>)
      modifies this
      ensures !loading && saving == old(saving) && editMode == old(editMode) && updates == old(updates)
      ensures response.Err? ==> template == old(template) && templateData == old(templateData) &&
                                error == OrString(response.message, "Failed to load template")
      ensures response.Ok? ==> template == Some(response.value)
      ensures response.Ok? && response.value.content == "" ==>
        templateData == old(templateData) && error == old(error)
      ensures response.Ok? && response.value.content != "" &&
              DecodeContent(response.value.content, decode).None? ==>
        templateData == old(templateData) && error == "Error loading template data"
      ensures response.Ok? && response.value.content != "" &&
              DecodeContent(response.value.content, decode).Some? ==>
        templateData == DecodeContent(response.value.content, decode).value && error == old(error)
    {
      loading := true;
      match response {
        case Err(message) =>
          error := OrString(message, "Failed to load template");
        case Ok(row) =>
          template := Some(row);
          if row.content != "" {
            var parsed := decode(row.content);
            match parsed {
              case None => error := "Error loading template data";
              case Some(v) =>
                if v.Null? {
                  error := "Error loading template data";
                } else if v.Object? && "basicInfo" in v.fields && TruthyValue(v.fields["basicInfo"]) {
                  templateData := v.fields["basicInfo"];
                } else {
                  templateData := v;
                }
            }
          }
      }
      loading := false;
    }

    /** `handleSave`: nothing happens without a loaded row or a signed-in user; otherwise the
        update is sent and, when it succeeds, edit mode ends and the row is fetched again.
        `updateError` is the error the update returned, `refetch` what the new fetch returns. */
    method HandleSave(signedIn: bool, updateError: Option<string>, refetch: Result<Row>,
                      decode: string -> Option<Value>)
      modifies this
      ensures (old(template).None? || !signedIn) ==>
        template == old(template) && templateData == old(templateData) && error == old(error) &&
        editMode == old(editMode) && saving == old(saving) && loading == old(loading) && updates == old(updates)
      ensures old(template).Some? && signedIn ==>
        updates == old(updates) + [UpdateOf(old(templateData), old(template).value)] && !saving
      ensures old(template).Some? && signedIn && updateError.Some? ==>
        error == OrString(updateError.value, "Failed to save changes") && editMode == old(editMode) &&
        template == old(template) && templateData == old(templateData) && loading == old(loading)
      ensures old(template).Some? && signedIn && updateError.None? ==> !editMode && !loading
      ensures old(template).Some? && signedIn && updateError.None? && refetch.Err? ==>
        template == old(template) && templateData == old(templateData) &&
        error == OrString(refetch.message, "Failed to load template")
      ensures old(template).Some? && signedIn && updateError.None? && refetch.Ok? ==>
        template == Some(refetch.value)
      ensures old(template).Some? && signedIn && updateError.None? && refetch.Ok? &&
              refetch.value.content == "" ==>
        templateData == old(templateData) && error == old(error)
      ensures old(template).Some? && signedIn && updateError.None? && refetch.Ok? &&
              refetch.value.content != "" && DecodeContent(refetch.value.content, decode).None? ==>
        templateData == old(templateData) && error == "Error loading template data"
      ensures old(template).Some? && signedIn && updateError.None? && refetch.Ok? &&
              refetch.value.content != "" && DecodeContent(refetch.value.content, decode).Some? ==>
        templateData == DecodeContent(refetch.value.content, decode).value && error == old(error)
    {
      if template.None? || !signedIn {
        return;
      }
      saving := true;
      updates := updates + [UpdateOf(templateData, template.value)];
      if updateError.Some? {
        error := OrString(updateError.value, "Failed to save changes");
      } else {
        editMode := false;
        FetchTemplate(refetch, decode);
      }
      saving := false;
    }
  }
}
