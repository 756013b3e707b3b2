/** The research-template record shared by the template editor and the template viewer
    (the `TemplateData` interface of src/components/templates/CreateTemplate.tsx and
    TemplateViewer.tsx), the way both read its numeric fields, and the banding expressions both
    pages display. */
module TemplateData {
  import opened JsPrelude
  import opened JsNumber

  /** The 69 text fields of a template, in declaration order. */
  const TextFields: seq<string> := [
    "companyName", "tickerSymbol", "businessModel", "revenueBreakdown", "moatsAdvantages", "risksWeaknesses",
    "industryTrends", "competitorLandscape", "regulatoryEnvironment", "customerConcentration", "currentPrice", "marketCap",
    "peRatio", "forwardPE", "pegRatio", "evEbitda", "dividendYield", "priceToBook",
    "peerComparison", "cashEquivalents", "shortTermInvestments", "longTermInvestments", "shortTermDebt", "longTermDebt",
    "totalAssets", "currentAssets", "currentLiabilities", "operatingCashFlow2025", "operatingCashFlow2024", "operatingCashFlow2023",
    "netIncome2025", "netIncome2024", "netIncome2023", "capex2025", "capex2024", "capex2023",
    "totalRevenue2025", "totalRevenue2024", "totalRevenue2023", "netIncomeStatement2025", "netIncomeStatement2024", "netIncomeStatement2023",
    "ceoName", "ceoStartDate", "ceoBackground", "leadershipHistory", "ceoTurnoverHistory", "previousCeo",
    "managementCulture", "currentCeoRevenue", "currentCeoEarnings", "previousCeoRevenue", "previousCeoEarnings", "keyExecutives",
    "recentLeadershipChanges", "managementNotes", "bullCase", "bearCase", "keyCatalysts", "primaryRiskFactors",
    "investmentDecision", "confidenceLevel", "investmentTimeHorizon", "recommendedPositionSize", "targetPrice", "fairValueEstimate",
    "dcfValuation", "multiplesValuation", "additionalThesisNotes"]

  /** The two boolean fields. */
  const FounderLed := "founderLed"
  const PromotedInternally := "promotedInternally"

  /** A JSON value as stored in a template's `content` column. The editor and the viewer store
      strings and booleans; the content the AI analysis page stores also holds numbers and
      arrays. JSON numbers are finite, so a number is an exact real. */
  datatype Value =
    | Text(text: string)
    | Flag(flag: bool)
    | NumberValue(number: real)
    | ArrayValue(items: seq<Value>)
    | Object(fields: map<string, Value>)
    | Null

  /** JavaScript truthiness of a JSON value. */
  predicate TruthyValue(v: Value) {
    match v
    case Text(s) => s != ""
    case Flag(b) => b
    case NumberValue(x) => x != 0.0
    case ArrayValue(_) => true
    case Object(_) => true
    case Null => false
  }

  /** The editor's form: a string for every text field and the two flags. */
  datatype Form = Form(text: map<string, string>, founderLed: bool, promotedInternally: bool)

  /** Every text field, and nothing else, has an entry. */
  predicate Complete(f: Form) {
    (forall n :: n in TextFields ==> n in f.text) && (forall n :: n in f.text ==> n in TextFields)
  }

  /** The initial state of the editor's form, which clear-all restores: every text field '' and
      both flags false. */
  function Blank(): (f: Form)
    ensures Complete(f)
    ensures forall n :: n in f.text ==> f.text[n] == ""
    ensures !f.founderLed && !f.promotedInternally
  {
    Form(map n | n in TextFields :: "", false, false)
  }

  /** `JSON.stringify(templateData)` before it is turned into text. */
  function ToValue(f: Form): Value {
    Object((map n | n in f.text :: Text(f.text[n]))[FounderLed := Flag(f.founderLed)][PromotedInternally := Flag(f.promotedInternally)])
  }

  /** `templateData[name]`: the value stored under name, or None for `undefined`. Only an
      object has these fields; reading one of any other value gives `undefined`. */
  function FieldValue(v: Value, name: string): (r: Option<Value>)
    ensures r.Some? <==> v.Object? && name in v.fields
  {
    if v.Object? && name in v.fields then Some(v.fields[name]) else None
  }

  /** `parseFloat(String(v))`. A string is parsed as it stands, and a number's string form
      parses back to the number. An array's string form joins its items' string forms with
      commas (null as the empty string); no literal continues past a comma, so only the first
      item counts (ArrayOfTextsReadsJoin). A flag, an object and null turn into "true",
      "false", "[object Object]" and "null", none of which starts with a number. */
  function ParsedValue(v: Value): Number {
    match v
    case Text(s) => ParseFloat(s)
    case NumberValue(x) => Num(x)
    case ArrayValue(items) => if items == [] then NaN else ParsedValue(items[0])
    case _ => NaN
  }

  /** `parseFloat(templateData[name]) || 0`. A missing field is `undefined`, whose string form
      "undefined" holds no number. */
  function NumberField(v: Value, name: string): real {
    match FieldValue(v, name)
    case Some(f) => OrNumber(ParsedValue(f), 0.0)
    case None => 0.0
  }

  /** A field that is missing, or holds a flag, an object, null, an empty array or a string
      with no digit and no `Infinity` reads as 0. */
  lemma MissingFieldIsZero(v: Value, name: string)
    requires FieldValue(v, name).None? || FieldValue(v, name).value.Flag? || FieldValue(v, name).value.Object? ||
             FieldValue(v, name).value.Null? || FieldValue(v, name).value == ArrayValue([]) ||
             (FieldValue(v, name).value.Text? &&
              (forall i :: 0 <= i < |FieldValue(v, name).value.text| ==> !IsDigit(FieldValue(v, name).value.text[i])) &&
              !Contains(FieldValue(v, name).value.text, "Infinity"))
    ensures NumberField(v, name) == 0.0
  {
    if FieldValue(v, name).Some? && FieldValue(v, name).value.Text? {
      NoDigitIsNaN(FieldValue(v, name).value.text);
    }
  }

  /** A field holding a JSON number reads as that number. */
  lemma NumberFieldOfNumber(v: Value, name: string, x: real)
    requires FieldValue(v, name) == Some(NumberValue(x))
    ensures NumberField(v, name) == x
  {
  }

  /** The items of an array of strings. */
  function Texts(items: seq<string>): (r: seq<Value>)
    ensures |r| == |items| && forall i :: 0 <= i < |r| ==> r[i] == Text(items[i])
  {
    seq(|items|, i requires 0 <= i < |items| => Text(items[i]))
  }

  /** An array of strings reads as `parseFloat` of its string form, the items joined with
      commas. */
  lemma ArrayOfTextsReadsJoin(items: seq<string>)
    requires |items| >= 1
    ensures ParsedValue(ArrayValue(Texts(items))) == ParseFloat(Join(items, ','))
  {
    if |items| > 1 {
      ParseFloatStopsAt(items[0], [','] + Join(items[1..], ','));
      assert items[0] + [','] + Join(items[1..], ',') == items[0] + ([','] + Join(items[1..], ','));
    }
  }

  /** Reading a field of a stored form gives what the form held. */
  lemma NumberFieldOfForm(f: Form, name: string)
    requires name in f.text && name != FounderLed && name != PromotedInternally
    ensures NumberField(ToValue(f), name) == NumberOrZero(f.text[name])
  {
  }

  // ---------------------------------------------------------------------------
  // The numbers the calculators read

  /** One figure for each of the three years 2023, 2024 and 2025. */
  datatype Years = Years(y2023: real, y2024: real, y2025: real)

  datatype BalanceInputs = BalanceInputs(cash: real, shortTermInvestments: real, longTermInvestments: real,
    shortTermDebt: real, longTermDebt: real, totalAssets: real, currentAssets: real, currentLiabilities: real)

  datatype CashFlowInputs = CashFlowInputs(operatingCashFlow: Years, netIncome: Years, capex: Years)

  datatype RevenueInputs = RevenueInputs(revenue: Years, netIncome: Years)

  function YearsOf(v: Value, prefix: string): Years {
    Years(NumberField(v, prefix + "2023"), NumberField(v, prefix + "2024"), NumberField(v, prefix + "2025"))
  }

  function BalanceInputsOf(v: Value): BalanceInputs {
    BalanceInputs(NumberField(v, "cashEquivalents"), NumberField(v, "shortTermInvestments"),
      NumberField(v, "longTermInvestments"), NumberField(v, "shortTermDebt"), NumberField(v, "longTermDebt"),
      NumberField(v, "totalAssets"), NumberField(v, "currentAssets"), NumberField(v, "currentLiabilities"))
  }

  function CashFlowInputsOf(v: Value): CashFlowInputs {
    CashFlowInputs(YearsOf(v, "operatingCashFlow"), YearsOf(v, "netIncome"), YearsOf(v, "capex"))
  }

  function RevenueInputsOf(v: Value): RevenueInputs {
    RevenueInputs(YearsOf(v, "totalRevenue"), YearsOf(v, "netIncomeStatement"))
  }

  /** Free cash flow of each year: operating cash flow minus capital expenditure. */
  function FreeCashFlow(c: CashFlowInputs): (r: Years)
    ensures r.y2023 + c.capex.y2023 == c.operatingCashFlow.y2023
    ensures r.y2024 + c.capex.y2024 == c.operatingCashFlow.y2024
    ensures r.y2025 + c.capex.y2025 == c.operatingCashFlow.y2025
  {
    Years(c.operatingCashFlow.y2023 - c.capex.y2023, c.operatingCashFlow.y2024 - c.capex.y2024,
          c.operatingCashFlow.y2025 - c.capex.y2025)
  }

  // ---------------------------------------------------------------------------
  // Bands shown next to the ratios (the same expressions on both pages)

  datatype DebtBand = LowRisk | Moderate | HighRisk

  /** `ratio < 20 ? 'Low Risk' : ratio < 40 ? 'Moderate' : 'High Risk'` */
  function DebtBandOf(debtToAssets: real): (b: DebtBand)
    ensures b == LowRisk <==> debtToAssets < 20.0
    ensures b == Moderate <==> 20.0 <= debtToAssets < 40.0
    ensures b == HighRisk <==> debtToAssets >= 40.0
  {
    if debtToAssets < 20.0 then LowRisk else if debtToAssets < 40.0 then Moderate else HighRisk
  }

  function DebtBandLabel(b: DebtBand): string {
    match b
    case LowRisk => "Low Risk"
    case Moderate => "Moderate"
    case HighRisk => "High Risk"
  }

  function DebtRank(b: DebtBand): nat {
    match b
    case LowRisk => 0
    case Moderate => 1
    case HighRisk => 2
  }

  /** More debt never gives a better band. */
  lemma DebtBandMonotone(r1: real, r2: real)
    requires r1 <= r2
    ensures DebtRank(DebtBandOf(r1)) <= DebtRank(DebtBandOf(r2))
  {
  }

  datatype LiquidityBand = Strong | Adequate | Weak

  /** `ratio > 2 ? 'Strong' : ratio > 1 ? 'Adequate' : 'Weak'` */
  function LiquidityBandOf(currentRatio: real): (b: LiquidityBand)
    ensures b == Strong <==> currentRatio > 2.0
    ensures b == Adequate <==> 1.0 < currentRatio <= 2.0
    ensures b == Weak <==> currentRatio <= 1.0
  {
    if currentRatio > 2.0 then Strong else if currentRatio > 1.0 then Adequate else Weak
  }

  function LiquidityBandLabel(b: LiquidityBand): string {
    match b
    case Strong => "Strong"
    case Adequate => "Adequate"
    case Weak => "Weak"
  }

  function LiquidityRank(b: LiquidityBand): nat {
    match b
    case Strong => 0
    case Adequate => 1
    case Weak => 2
  }

  /** A higher current ratio never gives a worse band. */
  lemma LiquidityBandMonotone(r1: real, r2: real)
    requires r1 <= r2
    ensures LiquidityRank(LiquidityBandOf(r2)) <= LiquidityRank(LiquidityBandOf(r1))
  {
  }

  /** `$${Math.abs(net)} ${net >= 0 ? 'Cash' : 'Debt'}`: the magnitude shown and its label. */
  function NetPosition(netCashDebt: real): (r: (real, string))
    ensures r.0 >= 0.0
    ensures r.1 == "Cash" <==> netCashDebt >= 0.0
    ensures r.1 == "Cash" || r.1 == "Debt"
    ensures (if r.1 == "Cash" then r.0 else -r.0) == netCashDebt
  {
    (if netCashDebt >= 0.0 then netCashDebt else -netCashDebt, if netCashDebt >= 0.0 then "Cash" else "Debt")
  }
}
