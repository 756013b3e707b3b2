/** The template editor (src/components/templates/CreateTemplate.tsx): its ratio and growth
    expressions, which replace a zero denominator by 1 instead of guarding the division, the
    validation and row construction of its save handler, and its clear-all reset. */
module CreateTemplate {
  import opened JsPrelude
  import opened JsNumber
  import opened TemplateData
  import TemplateViewer

  // ---------------------------------------------------------------------------
  // Calculators

  /** `x || 1` for a number that is never NaN (every input already went through `|| 0`). */
  function OrOne(x: real): (r: real)
    ensures r != 0.0
    ensures x != 0.0 ==> r == x
    ensures x == 0.0 ==> r == 1.0
  {
    if x != 0.0 then x else 1.0
  }

  /** The editor's `ratios` object. */
  function EditorRatios(b: BalanceInputs): TemplateViewer.Ratios {
    var totalCashInvestments := b.cash + b.shortTermInvestments + b.longTermInvestments;
    var totalDebt := b.shortTermDebt + b.longTermDebt;
    TemplateViewer.Ratios(totalCashInvestments, totalDebt,
      totalDebt / OrOne(b.totalAssets) * 100.0,
      b.currentAssets / OrOne(b.currentLiabilities),
      totalCashInvestments - totalDebt)
  }

  /** The editor's ratio rules: the same sums and net position as the viewer; the division is by
      the total assets or liabilities when they are non-zero, and by 1 when they are zero. */
  lemma EditorRatiosFacts(b: BalanceInputs)
    ensures var r := EditorRatios(b);
      r.totalCashInvestments == b.cash + b.shortTermInvestments + b.longTermInvestments &&
      r.totalDebt == b.shortTermDebt + b.longTermDebt &&
      r.netCashDebt == r.totalCashInvestments - r.totalDebt &&
      (b.totalAssets != 0.0 ==> r.debtToAssetsRatio * b.totalAssets == r.totalDebt * 100.0) &&
      (b.totalAssets == 0.0 ==> r.debtToAssetsRatio == r.totalDebt * 100.0) &&
      (b.currentLiabilities != 0.0 ==> r.currentRatio * b.currentLiabilities == b.currentAssets) &&
      (b.currentLiabilities == 0.0 ==> r.currentRatio == b.currentAssets)
  {
  }

  /** For positive denominators the two pages agree; with none entered they can show opposite
      bands: the editor rates current assets above 2 with no liabilities as Strong where the
      viewer says Weak, and debt of 0.4 or more with no total assets as High Risk where the
      viewer says Low Risk. */
  lemma EditorAgainstViewerRatios(b: BalanceInputs)
    ensures b.totalAssets > 0.0 ==>
      EditorRatios(b).debtToAssetsRatio == TemplateViewer.ViewerRatios(b).debtToAssetsRatio
    ensures b.currentLiabilities > 0.0 ==>
      EditorRatios(b).currentRatio == TemplateViewer.ViewerRatios(b).currentRatio
    ensures b.currentLiabilities == 0.0 && b.currentAssets > 2.0 ==>
      LiquidityBandOf(EditorRatios(b).currentRatio) == Strong &&
      LiquidityBandOf(TemplateViewer.ViewerRatios(b).currentRatio) == Weak
    ensures b.totalAssets == 0.0 && b.shortTermDebt + b.longTermDebt >= 0.4 ==>
      DebtBandOf(EditorRatios(b).debtToAssetsRatio) == HighRisk &&
      DebtBandOf(TemplateViewer.ViewerRatios(b).debtToAssetsRatio) == LowRisk
  {
  }

  /** `(cur - prev) / (prev || 1) * 100` */
  function EditorGrowth(current: real, previous: real): (r: real)
    ensures previous != 0.0 ==> r * previous == (current - previous) * 100.0
    ensures previous == 0.0 ==> r == current * 100.0
  {
    (current - previous) / OrOne(previous) * 100.0
  }

  /** The editor's growth agrees with the viewer's for a positive earlier year, has the opposite
      sign for a negative one, and for an earlier year of 0 is the current figure times 100
      where the viewer shows 0. */
  lemma EditorAgainstViewerGrowth(current: real, previous: real)
    ensures previous > 0.0 ==> EditorGrowth(current, previous) == TemplateViewer.ViewerGrowth(current, previous)
    ensures previous < 0.0 ==> EditorGrowth(current, previous) == -TemplateViewer.ViewerGrowth(current, previous)
    ensures previous == 0.0 ==>
      EditorGrowth(current, previous) == current * 100.0 && TemplateViewer.ViewerGrowth(current, previous) == 0.0
  {
    if previous < 0.0 {
      assert TemplateViewer.Abs(previous) == -previous;
      assert (current - previous) / -previous == -((current - previous) / previous);
    }
  }

  /** So a figure that rose from a negative year shows as a fall in the editor. */
  lemma EditorGrowthSignFlips(current: real, previous: real)
    requires previous < 0.0 && current > previous
    ensures EditorGrowth(current, previous) < 0.0
  {
    EditorAgainstViewerGrowth(current, previous);
    TemplateViewer.ViewerGrowthSign(current, previous);
  }

  /** The editor's `cashFlowMetrics` object. */
  function EditorCashFlowMetrics(c: CashFlowInputs): TemplateViewer.CashFlowMetrics {
    var fcf := FreeCashFlow(c);
    TemplateViewer.CashFlowMetrics(fcf,
      EditorGrowth(c.operatingCashFlow.y2024, c.operatingCashFlow.y2023),
      EditorGrowth(c.operatingCashFlow.y2025, c.operatingCashFlow.y2024),
      EditorGrowth(c.netIncome.y2024, c.netIncome.y2023),
      EditorGrowth(c.netIncome.y2025, c.netIncome.y2024),
      EditorGrowth(fcf.y2024, fcf.y2023),
      EditorGrowth(fcf.y2025, fcf.y2024))
  }

  /** The editor's `revenueMetrics` object. */
  function EditorRevenueMetrics(r: RevenueInputs): TemplateViewer.RevenueMetrics {
    TemplateViewer.RevenueMetrics(EditorGrowth(r.revenue.y2024, r.revenue.y2023), EditorGrowth(r.revenue.y2025, r.revenue.y2024),
                                  EditorGrowth(r.netIncome.y2024, r.netIncome.y2023), EditorGrowth(r.netIncome.y2025, r.netIncome.y2024))
  }

  /** The editor computes the same free cash flow as the viewer, and each of its growth figures
      equals the viewer's whenever the earlier year is positive. */
  lemma EditorAgainstViewerCashFlow(c: CashFlowInputs)
    ensures var e := EditorCashFlowMetrics(c);
      var v := TemplateViewer.ViewerCashFlowMetrics(c);
      e.fcf == v.fcf &&
      (c.operatingCashFlow.y2023 > 0.0 ==> e.ocfGrowth2024 == v.ocfGrowth2024) &&
      (c.operatingCashFlow.y2024 > 0.0 ==> e.ocfGrowth2025 == v.ocfGrowth2025) &&
      (c.netIncome.y2023 > 0.0 ==> e.niGrowth2024 == v.niGrowth2024) &&
      (c.netIncome.y2024 > 0.0 ==> e.niGrowth2025 == v.niGrowth2025) &&
      (e.fcf.y2023 > 0.0 ==> e.fcfGrowth2024 == v.fcfGrowth2024) &&
      (e.fcf.y2024 > 0.0 ==> e.fcfGrowth2025 == v.fcfGrowth2025)
  {
    var fcf := FreeCashFlow(c);
    EditorAgainstViewerGrowth(c.operatingCashFlow.y2024, c.operatingCashFlow.y2023);
    EditorAgainstViewerGrowth(c.operatingCashFlow.y2025, c.operatingCashFlow.y2024);
    EditorAgainstViewerGrowth(c.netIncome.y2024, c.netIncome.y2023);
    EditorAgainstViewerGrowth(c.netIncome.y2025, c.netIncome.y2024);
    EditorAgainstViewerGrowth(fcf.y2024, fcf.y2023);
    EditorAgainstViewerGrowth(fcf.y2025, fcf.y2024);
  }

  /** The same agreement for the income-statement table. */
  lemma EditorAgainstViewerRevenue(r: RevenueInputs)
    ensures var e := EditorRevenueMetrics(r);
      var v := TemplateViewer.ViewerRevenueMetrics(r);
      (r.revenue.y2023 > 0.0 ==> e.revGrowth2024 == v.revGrowth2024) &&
      (r.revenue.y2024 > 0.0 ==> e.revGrowth2025 == v.revGrowth2025) &&
      (r.netIncome.y2023 > 0.0 ==> e.niGrowth2024 == v.niGrowth2024) &&
      (r.netIncome.y2024 > 0.0 ==> e.niGrowth2025 == v.niGrowth2025)
  {
    EditorAgainstViewerGrowth(r.revenue.y2024, r.revenue.y2023);
    EditorAgainstViewerGrowth(r.revenue.y2025, r.revenue.y2024);
    EditorAgainstViewerGrowth(r.netIncome.y2024, r.netIncome.y2023);
    EditorAgainstViewerGrowth(r.netIncome.y2025, r.netIncome.y2024);
  }

  // ---------------------------------------------------------------------------
  // Saving

  /** The row `handleSave` inserts into the templates table. */
  datatype InsertRow = InsertRow(userId: string, title: string, content: Value, ticker: Option<string>,
                                 sector: Option<string>)

  /** Why a save is refused. */
  datatype Refusal = NotSignedIn | NoCompanyName

  /** The message the page shows for a refusal. */
  function RefusalMessage(reason: Refusal): string {
    match reason
    case NotSignedIn => "Authentication required"
    case NoCompanyName => "Please enter a company name"
  }

  /** What a save attempt does: refuse for a reason, or insert a row. */
  datatype SaveDecision = Refuse(reason: Refusal) | Insert(row: InsertRow)

  /** `templateData[name]` for a text field; every text field has an entry in a complete form,
      so the empty default is never read there. */
  function FieldText(f: Form, name: string): (r: string)
    ensures name in f.text ==> r == f.text[name]
  {
    if name in f.text then f.text[name] else ""
  }

  /** The row `handleSave` inserts for a signed-in user: the company name as title, the whole
      form as content, the ticker only when one was entered, and no sector. */
  function RowOf(user: string, f: Form): (r: InsertRow)
    ensures r.userId == user && r.title == FieldText(f, "companyName") && r.content == ToValue(f)
    ensures r.sector == None
    ensures r.ticker.Some? <==> FieldText(f, "tickerSymbol") != ""
    ensures r.ticker.Some? ==> r.ticker.value == FieldText(f, "tickerSymbol")
  {
    var ticker := FieldText(f, "tickerSymbol");
    InsertRow(user, FieldText(f, "companyName"), ToValue(f), if ticker != "" then Some(ticker) else None, None)
  }

  /** The validation of `handleSave`. `user` is the signed-in user's id, `clientReady` whether a
      database client exists. */
  function SaveDecisionOf(user: Option<string>, clientReady: bool, f: Form): (d: SaveDecision)
    ensures (user.None? || !clientReady) <==> d == Refuse(NotSignedIn)
    ensures d == Refuse(NoCompanyName) <==>
      user.Some? && clientReady && Trim(FieldText(f, "companyName")) == ""
    ensures d.Insert? <==> user.Some? && clientReady && Trim(FieldText(f, "companyName")) != ""
    ensures d.Insert? ==> d.row == RowOf(user.value, f)
  {
    if user.None? || !clientReady then Refuse(NotSignedIn)
    else if Trim(FieldText(f, "companyName")) == "" then Refuse(NoCompanyName)
    else Insert(RowOf(user.value, f))
  }

  /** A name made only of white space is refused: there is no insert for it. */
  lemma BlankNameIsRefused(user: string, f: Form)
    requires forall i :: 0 <= i < |FieldText(f, "companyName")| ==> IsJsSpace(FieldText(f, "companyName")[i])
    ensures SaveDecisionOf(Some(user), true, f) == Refuse(NoCompanyName)
  {
    TrimEmptyIff(FieldText(f, "companyName"));
  }

  /** The editor page's state. */
  class EditorPage {
    var templateData: Form
    var loading: bool
    var error: string
    /** The insert requests sent to the templates table, oldest first, including those that
        failed. */
    var inserted: seq<InsertRow>
    /** The route the page navigated to, if any. */
    var navigatedTo: Option<string>

    predicate Valid()
      reads this`templateData
    {
      Complete(templateData)
    }

    /** The first render: a blank form and no error. */
    constructor ()
      ensures Valid()
      ensures templateData == Blank() && !loading && error == "" && inserted == [] && navigatedTo == None
    {
      templateData := Blank();
      loading := false;
      error := "";
      inserted := [];
      navigatedTo := None;
    }

    /** `handleSave`: `insertError` is the error the insert returns, if any. The form is outside
        the frame, so it, and with it `Valid()`, is left as it was. */
    method HandleSave(user: Option<string>, clientReady: bool, insertError: Option<string>)
      modifies this`loading, this`error, this`inserted, this`navigatedTo
      ensures var d := SaveDecisionOf(user, clientReady, old(templateData));
        (d.Refuse? ==> error == RefusalMessage(d.reason) && inserted == old(inserted) && navigatedTo == old(navigatedTo) &&
                       loading == old(loading)) &&
        (d.Insert? ==> inserted == old(inserted) + [d.row] && !loading) &&
        (d.Insert? && insertError.Some? ==>
           error == OrString(insertError.value, "Failed to save template") && navigatedTo == old(navigatedTo)) &&
        (d.Insert? && insertError.None? ==> error == "" && navigatedTo == Some("/dashboard"))
    {
      var f := templateData;
      if user.None? || !clientReady {
        error := RefusalMessage(NotSignedIn);
        return;
      }
      var name := FieldText(f, "companyName");
      if Trim(name) == "" {
        error := RefusalMessage(NoCompanyName);
        return;
      }
      loading := true;
      error := "";
      var row := RowOf(user.value, f);
      inserted := inserted + [row];
      if insertError.Some? {
        error := OrString(insertError.value, "Failed to save template");
      } else {
        navigatedTo := Some("/dashboard");
      }
      loading := false;
    }

    /** `handleClearAll`: when the user confirms, every text field becomes '' and both flags
        false; otherwise nothing changes. */
    method HandleClearAll(confirmed: bool)
      requires Valid()
      modifies this
      ensures Valid()
      ensures confirmed ==> templateData == Blank()
      ensures !confirmed ==> templateData == old(templateData)
      ensures loading == old(loading) && error == old(error) && inserted == old(inserted) && navigatedTo == old(navigatedTo)
    {
      if confirmed {
        templateData := Blank();
      }
    }
  }
}
