# FIntraAI research-template core, modelled in Dafny

FIntraAI is a stock-research web app. Users fill in research templates about a company:
business, valuation, balance sheet, cash flow, management and thesis. The app shows ratios
and growth figures computed from the numbers they enter. Paid plans unlock more templates
and an AI analysis. That analysis is built by a serverless function from the company's most
recent SEC filing.

This project models the decision and arithmetic code of the app and proves what it
computes. It covers nine parts, one Dafny module each (plus two shared modules):

- `FinancialParser` models the filing scanner `parseFinancialData` of the
  `generate-ai-template` function. It has a hand-written matcher for its six label/number
  regular expressions, in both the global and the first-match form. The imperative
  `forEach`/`push` loops are methods proved equal to a specification function.
- `CompanyAnalysis` models the rest of `generateCompanyAnalysis`:
  - the growth-rate function;
  - the baseline fallbacks and the three-year compounding projections;
  - the balance sheet with its fallback constants;
  - the keyword buckets over the language model's answer lines;
  - the hard failure when the search finds no filing.
- `TemplateData` models the template record shared by the editor and the viewer, the way
  both pages turn its text fields into numbers (`parseFloat(x) || 0`), and the risk,
  liquidity and net-position labels both pages display.
- `TemplateViewer` models the viewer's calculators, its content-shape selection on load and
  its title/ticker fallback on save. The viewer guards each division and divides growth by
  the absolute value of the earlier year. Its page state is a class with the two handlers.
- `CreateTemplate` models the editor's calculators, its save validation and the row it
  inserts, and its clear-all reset. The editor replaces a zero denominator by 1 and does
  not take absolute values. The module proves where the two pages agree and where they
  show different things.
- `Subscription` and `StripeConfig` model the entitlement rules of the subscription hook
  and the two-product billing catalogue with its two lookups.
- `ChatBubble` models the help bot's keyword router and its message list. The list is a
  class whose send handler appends the user's message and schedules a reply.
- `ReviewsPage` models the review list, which a submission prepends to, and the five-star
  rendering.
- `PricingSection` models the pricing cards' button table and button label.
- `SupabaseClient` models the database client's configuration check.
- `JsPrelude` and `JsNumber` are shared. They hold the JavaScript library behaviour the
  code relies on: `filter/slice/find/some`, `trim`, `split`, `includes`, ASCII case
  mapping, truthiness and `parseFloat`.

Numbers are exact `real`s, and a JavaScript value that may be NaN is `Number = NaN | Num(v)`.
Every network, database, clock and language-model call is a parameter of the member that
uses it:

- the filings search result is a `Result<seq<Filing>>`;
- the section extractor is a function `(url, item) -> text`;
- the language model is a function `Prompt -> answer`;
- a database reply is a `Result`, or an optional error;
- `JSON.parse` is a `string -> Option<Value>` that is `None` where it throws;
- the current year and today's date are values.

Several things in the code differ from how the system is documented. The model follows
the code:

- The balance sheet's `assetsToDebtRatio` is the extracted total assets over the extracted
  total debt, when both are truthy, and 3.2 otherwise. It is not the liquid total over the
  debt total (`CompanyAnalysis.BalanceSheetRules`).
- The first projected year's growth fields are 0, not null.
- The viewer gives a ratio of 0 when its denominator is not positive. That shows the current
  ratio as "Weak", but the debt as "Low Risk", which is the most favourable band, not the
  most conservative one (`TemplateViewer.ViewerEmptyDenominatorBands`). The editor instead
  divides by 1 (`CreateTemplate.EditorAgainstViewerRatios`).
- A current ratio of exactly 1 is "Weak" and one of exactly 2 is "Adequate". The bands are
  `> 2` and `> 1`.
- The chat bot's pricing reply says the free plan has 2 templates. The subscription hook
  allows 1 (`Subscription.LimitsTable`).
- The pricing card, the Stripe catalogue and the chat bot's pricing reply describe the Basic
  plan as unlimited templates.
  The subscription hook caps Basic at 10 (`Subscription.LimitsTable`).

## Model

| member | source | states |
|---|---|---|
| JsPrelude.Filter | supabase/functions/generate-ai-template/index.ts:322-323 | `filter` keeps exactly the elements of the list that satisfy the predicate: no other element, and every one that does, never more than there were |
| JsPrelude.FilterAppend | supabase/functions/generate-ai-template/index.ts:322-323 | filtering two lists one after the other gives the filtered first list followed by the filtered second, so the kept elements stay in their order |
| JsPrelude.Take | supabase/functions/generate-ai-template/index.ts:377-379 | `slice(0, n)` is a prefix of the list of length min(n, length) |
| JsPrelude.MapSeq | supabase/functions/generate-ai-template/index.ts:199-205 | pushing f(x) for each element in order gives one image per element, position by position |
| JsPrelude.MapSeqSnoc | supabase/functions/generate-ai-template/index.ts:201-204 | one more push extends the mapped list by the image of the next element |
| JsPrelude.Find | supabase/functions/generate-ai-template/index.ts:320 | `find` is undefined exactly when no element satisfies the predicate, otherwise it is the first one that does |
| JsPrelude.FilterTakeBucket | supabase/functions/generate-ai-template/index.ts:377-379 | a `filter(...).slice(0, n)` bucket has at most n elements, each satisfying the predicate and taken from the list in its order, is the start of the full filtered list, and a satisfying element is left out only when the bucket already holds n |
| JsPrelude.FilterIsSubsequence | supabase/functions/generate-ai-template/index.ts:377 | a filtered list keeps the original order |
| JsPrelude.SubsequenceOfTail | supabase/functions/generate-ai-template/index.ts:377 | an order-preserving selection from the tail is one from the whole list |
| JsPrelude.DropHeadOfSubsequence | supabase/functions/generate-ai-template/index.ts:377 | dropping the first selected element keeps an order-preserving selection |
| JsPrelude.PrefixOfSubsequence | supabase/functions/generate-ai-template/index.ts:377-379 | a prefix of an order-preserving selection is one too, so slicing a filtered list keeps the order |
| JsPrelude.ToLower | src/components/shared/ChatBubble.tsx:45 | lower-casing keeps the length and maps each character, ASCII letters to lower case |
| JsPrelude.ToUpper | supabase/functions/generate-ai-template/index.ts:318 | upper-casing keeps the length and maps each character, ASCII letters to upper case |
| JsPrelude.ToLowerIdempotent | src/components/shared/ChatBubble.tsx:45 | lower-casing twice is lower-casing once |
| JsPrelude.ContainsIff | src/components/shared/ChatBubble.tsx:47 | `includes(sub)` holds exactly when sub occurs at some position |
| JsPrelude.Prefix | supabase/functions/generate-ai-template/index.ts:272 | `substring(0, n)` is a prefix of length min(n, length) |
| JsPrelude.TrimStart | supabase/functions/generate-ai-template/index.ts:320 | the leading white space removed is all white space, and the rest starts with a non-space |
| JsPrelude.TrimEnd | supabase/functions/generate-ai-template/index.ts:320 | the trailing white space removed is all white space, and the rest ends with a non-space |
| JsPrelude.TrimEmptyIff | src/components/templates/CreateTemplate.tsx:237 | `trim()` is empty exactly when every character is white space |
| JsPrelude.Split | supabase/functions/generate-ai-template/index.ts:320 | `split` yields at least one piece, and no piece contains the separator |
| JsPrelude.SplitJoin | supabase/functions/generate-ai-template/index.ts:320 | joining the pieces of a split with the separator gives back the string |
| JsPrelude.Lines | supabase/functions/generate-ai-template/index.ts:303-305 | the kept lines of an answer are non-blank and contain no line break |
| JsPrelude.LinesKeepsNonBlank | supabase/functions/generate-ai-template/index.ts:303-305 | every non-blank piece of `split('\n')` is among the kept lines, and the kept lines are split pieces in their original order |
| JsPrelude.OrString | src/components/templates/TemplateViewer.tsx:221 | `a \|\| b` on strings is a unless a is empty, then b |
| JsNumber.OrNumber | supabase/functions/generate-ai-template/index.ts:312 | `n \|\| d` is n when n is truthy (not NaN, not 0), otherwise d |
| JsNumber.LeadingDigits | src/components/templates/TemplateViewer.tsx:261 | the counted leading characters are digits and the next one is not |
| JsNumber.FractionValue | src/components/templates/TemplateViewer.tsx:261 | the digits after a decimal point denote a value between 0 and 1 |
| JsNumber.ParseFloatNonNegative | supabase/functions/generate-ai-template/index.ts:191 | a string starting with a digit or a point has no sign, so `parseFloat` never makes it negative |
| JsNumber.ParseFloatUnsigned | supabase/functions/generate-ai-template/index.ts:191 | such a string is read by the unsigned-literal grammar alone |
| JsNumber.ParseUnsignedNonNegative | supabase/functions/generate-ai-template/index.ts:191 | an unsigned literal never denotes a negative number |
| JsNumber.NoDigitIsNaN | src/components/templates/TemplateViewer.tsx:261 | text with no digit and no `Infinity` parses to NaN, so the field reads as 0 |
| JsNumber.ParseFloatNatToString | src/components/templates/TemplateViewer.tsx:261 | writing a natural number in decimal and parsing it back gives the number |
| JsNumber.ParseUnsignedOfDigits | src/components/templates/TemplateViewer.tsx:261 | a string of digits denotes its decimal value |
| JsNumber.ParseFloatOfSignedExponent | src/components/templates/TemplateViewer.tsx:261 | `parseFloat(" -1.5e2px")` is -150: leading space skipped, sign, fraction and exponent read, trailing junk ignored |
| JsNumber.ParseFloatOfLiteral | src/components/templates/TemplateViewer.tsx:261 | `parseFloat` of white space, an optional sign, digits, a point, fraction digits, an exponent part `e`/`E` with optional sign and digits, and then text that does not start with a digit, is the decimal value scaled by 10 to the signed exponent, negated after a `-` |
| JsNumber.ParseFloatOfDecimal | src/components/templates/TemplateViewer.tsx:261 | `parseFloat` of white space, an optional sign and `digits.digits` followed by text that cannot continue the literal is the decimal value, negated after a `-` |
| JsNumber.ParseFloatOfPoint | src/components/templates/TemplateViewer.tsx:261 | a plain decimal literal `digits.digits` parses to its value |
| JsNumber.ParseFloatOfSigned | src/components/templates/TemplateViewer.tsx:261 | leading white space is skipped; after it a `-` negates what the unsigned literal denotes and a `+` changes nothing |
| JsNumber.ParseUnsignedOfDecimal | src/components/templates/TemplateViewer.tsx:261 | digits, a point and fraction digits followed by a non-digit denote their decimal value scaled by whatever exponent part follows |
| JsNumber.ExponentOfDigits | src/components/templates/TemplateViewer.tsx:261 | an exponent part `e`/`E`, an optional sign and digits followed by a non-digit stands for the signed value of the digits |
| JsNumber.ScaleIsProduct | src/components/templates/TemplateViewer.tsx:261 | shifting a mantissa by e decimal places is multiplying it by 10 to the power e, for negative e too |
| JsNumber.ParseFloatDigitsThenJunk | src/components/templates/TemplateViewer.tsx:261 | `parseFloat` stops at the first character that cannot continue the literal |
| JsNumber.ParseFloatOfLeadingFraction | src/components/templates/TemplateViewer.tsx:261 | a literal without an integer part, such as ".25", is the fraction it writes |
| JsNumber.ParseFloatStopsAt | src/components/templates/TemplateViewer.tsx:261 | `parseFloat` never reads past a character that cannot continue a literal or the word `Infinity`, such as a comma: the text before it gives the same result |
| JsNumber.ParseFloatOfNoNumber | src/components/templates/TemplateViewer.tsx:261 | the empty string and a lone sign parse to NaN |
| FinancialParser.RunLength | supabase/functions/generate-ai-template/index.ts:188 | a greedy run: every character in it satisfies the class and the next one does not |
| FinancialParser.MatchAt | supabase/functions/generate-ai-template/index.ts:188 | a match starting at a position covers exactly the text between its ends |
| FinancialParser.Search | supabase/functions/generate-ai-template/index.ts:217-218 | the non-global `match` returns a real match starting at or after the scan point |
| FinancialParser.SearchLeftmost | supabase/functions/generate-ai-template/index.ts:217-218 | no match starts before the one found, and none at all when nothing is found |
| FinancialParser.ExtendNoMatch | supabase/functions/generate-ai-template/index.ts:217 | a position where nothing matches extends a match-free range by one |
| FinancialParser.AllMatches | supabase/functions/generate-ai-template/index.ts:188 | every global match lies inside the scanned text |
| FinancialParser.AllMatchesSound | supabase/functions/generate-ai-template/index.ts:188 | every global match is a real match at its start position |
| FinancialParser.ConsOrdered | supabase/functions/generate-ai-template/index.ts:188 | a match ending before the next ones keeps the list in text order |
| FinancialParser.AllMatchesOrdered | supabase/functions/generate-ai-template/index.ts:188 | the global matches do not overlap and come in text order |
| FinancialParser.AllMatchesLeftmost | supabase/functions/generate-ai-template/index.ts:188 | no match is skipped between one global match and the next |
| FinancialParser.AllMatchesExhaustive | supabase/functions/generate-ai-template/index.ts:188 | no match starts after the last global match |
| FinancialParser.KeepNumeric | supabase/functions/generate-ai-template/index.ts:191 | removing every character except digits and `.` leaves exactly the digits and points of the text: nothing else, and each of them |
| FinancialParser.KeepNumericAppend | supabase/functions/generate-ai-template/index.ts:191 | the clean-up works piece by piece, so the digits and points stay in their order |
| FinancialParser.KeepNumericOfParts | supabase/functions/generate-ai-template/index.ts:191 | numeric runs between runs of other characters are kept and joined, the rest dropped |
| FinancialParser.AmountOfFormattedFigure | supabase/functions/generate-ai-template/index.ts:191 | the amount of a figure written `$1,234.5 million` is 1234.5: the dollar sign, the thousands separator and the scale word are dropped and the scale is not applied |
| FinancialParser.CleanedAmountNonNegative | supabase/functions/generate-ai-template/index.ts:191 | an amount read from cleaned text is never negative |
| FinancialParser.PositivesSnoc | supabase/functions/generate-ai-template/index.ts:192-194 | one more revenue amount is pushed exactly when it is > 0 |
| FinancialParser.PushPositiveAmounts | supabase/functions/generate-ai-template/index.ts:189-196 | the revenue loop pushes the amounts > 0 of the matches, in order |
| FinancialParser.PushAmounts | supabase/functions/generate-ai-template/index.ts:199-205 | the net-income and cash-flow loops push every amount, in order, 0 and NaN included |
| FinancialParser.ParseFinancialData | supabase/functions/generate-ai-template/index.ts:177-233 | starting from empty lists and null facts, the scan fills the record the specification function describes |
| FinancialParser.PositivesExactly | supabase/functions/generate-ai-template/index.ts:192-194 | every kept number is positive and comes from the list, and no positive number is dropped |
| FinancialParser.PositiveAmountsExactly | supabase/functions/generate-ai-template/index.ts:189-196 | each revenue figure is a positive amount of one of the matches, and no positive amount is dropped |
| FinancialParser.RevenueFacts | supabase/functions/generate-ai-template/index.ts:188-196 | revenue holds exactly the positive amounts of the revenue matches |
| FinancialParser.AmountListFacts | supabase/functions/generate-ai-template/index.ts:199-214 | net income and operating cash flow hold one entry per match, in order, none negative |
| FinancialParser.FirstAmountFacts | supabase/functions/generate-ai-template/index.ts:217-230 | a single-valued fact is null exactly when there is no match, else it is read from group 1 of the first match |
| CompanyAnalysis.GrowthRate | supabase/functions/generate-ai-template/index.ts:235-238 | the percentage change from the earlier value, and 0 for an earlier value of 0 |
| CompanyAnalysis.Round | supabase/functions/generate-ai-template/index.ts:350 | `Math.round` gives the nearest integer, halves rounded up |
| CompanyAnalysis.Projected | supabase/functions/generate-ai-template/index.ts:344-346 | a positive base compounded by a positive factor stays positive |
| CompanyAnalysis.CompoundGrowth | supabase/functions/generate-ai-template/index.ts:351 | every year after the first of a compounding series shows growth of exactly (factor - 1) * 100 |
| CompanyAnalysis.BaselinesOfParsed | supabase/functions/generate-ai-template/index.ts:312-314 | baselines are the first truthy extracted figures, else 50000 and 15% / 18% of revenue, and are all positive |
| CompanyAnalysis.BaselinesOfSigned | supabase/functions/generate-ai-template/index.ts:312-314 | the same fallbacks for any figures with positive revenue and no negative entry |
| CompanyAnalysis.YearsEnding | supabase/functions/generate-ai-template/index.ts:308-309 | the projected years are three consecutive years ending with the current one |
| CompanyAnalysis.CashFlowSeriesGrowth | supabase/functions/generate-ai-template/index.ts:343-355 | one row per year, growth 0 in the first, then exactly 12% income and 10% cash-flow growth |
| CompanyAnalysis.IncomeSeriesGrowth | supabase/functions/generate-ai-template/index.ts:356-368 | one row per year, growth 0 in the first, then exactly 8% revenue and 12% income growth |
| CompanyAnalysis.BalanceSheetRules | supabase/functions/generate-ai-template/index.ts:332-342 | totals are the sums of their parts with the 29000 / 25000 fallbacks, and the ratio divides only by a truthy debt, else 3.2 |
| CompanyAnalysis.BalanceSheetOfParsed | supabase/functions/generate-ai-template/index.ts:332-342 | for any filing text, cash, long-term debt and the ratio are positive, the liquid total is above 60000 and the debt total above 8000 |
| CompanyAnalysis.AfterColonOr | supabase/functions/generate-ai-template/index.ts:320 | `found?.split(':')[1]?.trim() \|\| d` is the trimmed text between the first and the second colon when the line has a colon and that text is not blank; otherwise it is d, and it is never empty when d is not |
| CompanyAnalysis.AfterColonOfLine | supabase/functions/generate-ai-template/index.ts:320 | for a line `key:value` or `key:value:more` whose key and value hold no colon, the sector read is the trimmed value |
| CompanyAnalysis.TrimmedLineOr | supabase/functions/generate-ai-template/index.ts:374 | a line found is kept trimmed, and the fallback is used only when no line qualifies |
| CompanyAnalysis.ProfileFacts | supabase/functions/generate-ai-template/index.ts:317-324 | ticker upper-cased, name falls back to `<TICKER> Inc.`, sector never empty, at most 4 revenue streams and 5 risks, each a matching line in order |
| CompanyAnalysis.SummaryFacts | supabase/functions/generate-ai-template/index.ts:376-382 | at most 4 strengths, 3 weaknesses and 4 risks, each a matching line, risks never mention "strength", and the verdict is the first verdict line or the fallback |
| CompanyAnalysis.ExecutiveFacts | supabase/functions/generate-ai-template/index.ts:369-375 | name never empty, fixed role and start date, founder exactly when a line mentions it in any case, notes from the first performance line |
| CompanyAnalysis.PerformanceNotes | supabase/functions/generate-ai-template/index.ts:374 | the notes are the first performance or achievement line, trimmed, or the fallback |
| CompanyAnalysis.NamedExecutive | supabase/functions/generate-ai-template/index.ts:370 | the executive's name is never empty |
| CompanyAnalysis.FounderFlag | supabase/functions/generate-ai-template/index.ts:373 | the founder flag holds exactly when some line mentions "founder" in any letter case |
| CompanyAnalysis.GenerateCompanyAnalysis | supabase/functions/generate-ai-template/index.ts:245-250 | a failed search passes its error on, no filings fails with "No SEC filings found for ticker: ...", otherwise the analysis is the one built from the first (latest) filing and its sections |
| CompanyAnalysis.GeneratedAnalysisFacts | supabase/functions/generate-ai-template/index.ts:245-382 | every successful analysis has three years ending in the current one, growth of 8, 12, 12 and 10 percent after the first year, liquid assets above 60000, a positive assets-to-debt ratio, a non-empty sector, one named executive and the fixed market metrics |
| CompanyAnalysis.OnlyLatestFilingMatters | supabase/functions/generate-ai-template/index.ts:250 | two searches with the same first hit give the same analysis |
| CompanyAnalysis.AssembleProjections | supabase/functions/generate-ai-template/index.ts:308-368 | with positive baselines the series cover [Y-2, Y-1, Y], growth 0 first, then 8% / 12% / 10% |
| CompanyAnalysis.AnalyseProjections | supabase/functions/generate-ai-template/index.ts:262-368 | every analysis of a filing has those projections, because its baselines are positive |
| CompanyAnalysis.AnalyseInvariants | supabase/functions/generate-ai-template/index.ts:316-382 | liquid assets above 60000, positive ratio, non-empty sector and CEO name, one executive, fixed market metrics |
| TemplateData.Blank | src/components/templates/CreateTemplate.tsx:269-338 | the blank form has every text field, each empty, and both flags false |
| TemplateData.MissingFieldIsZero | src/components/templates/TemplateViewer.tsx:261-268 | a missing field, or one holding a flag, an object, null, an empty array or a string with no digit and no `Infinity`, reads as 0 |
| TemplateData.NumberFieldOfNumber | src/components/templates/TemplateViewer.tsx:261-268 | a field holding a JSON number reads as that number, since `parseFloat` of its string form gives it back |
| TemplateData.ArrayOfTextsReadsJoin | src/components/templates/TemplateViewer.tsx:261-268 | an array of strings reads as `parseFloat` of its string form, the items joined with commas |
| TemplateData.NumberFieldOfForm | src/components/templates/TemplateViewer.tsx:261-268 | reading a field of a stored form parses what the form held |
| TemplateData.FreeCashFlow | src/components/templates/TemplateViewer.tsx:298-300 | each year's free cash flow plus capex is its operating cash flow |
| TemplateData.DebtBandOf | src/components/templates/TemplateViewer.tsx:1127 | Low Risk below 20, Moderate from 20 below 40, High Risk from 40 |
| TemplateData.DebtBandMonotone | src/components/templates/TemplateViewer.tsx:1127 | more debt never gives a better band |
| TemplateData.LiquidityBandOf | src/components/templates/TemplateViewer.tsx:1142 | Strong above 2, Adequate above 1 up to 2, Weak otherwise |
| TemplateData.LiquidityBandMonotone | src/components/templates/TemplateViewer.tsx:1142 | a higher current ratio never gives a worse band |
| TemplateData.NetPosition | src/components/templates/TemplateViewer.tsx:1149 | a non-negative magnitude labelled Cash exactly when the net position is not negative, and the signed magnitude is the position |
| TemplateViewer.ViewerRatiosFacts | src/components/templates/TemplateViewer.tsx:260-283 | sums and net position of the components; debt over positive assets as a percentage, else 0; assets over positive liabilities, else 0 |
| TemplateViewer.ViewerEmptyDenominatorBands | src/components/templates/TemplateViewer.tsx:272-273 | no liabilities shows Weak and no assets shows Low Risk, whatever else was entered |
| TemplateViewer.MixedContentRatios | src/components/templates/TemplateViewer.tsx:260-276 | data holding the number 500 as `totalAssets`, the string "100" as `shortTermDebt` and no other balance field gives a debt-to-assets ratio of 20, Moderate: the number is read as it stands |
| TemplateViewer.MixedContentShownWhole | src/components/templates/TemplateViewer.tsx:190-196 | the content `{"totalAssets": 500, "shortTermDebt": "100"}` has no `basicInfo` part, so it is shown whole |
| TemplateViewer.ArrayFieldReadsFirstItem | src/components/templates/TemplateViewer.tsx:266 | a field holding the array `["500"]` reads as 500 |
| TemplateViewer.Abs | src/components/templates/TemplateViewer.tsx:302 | `Math.abs` is non-negative and is x or -x |
| TemplateViewer.ViewerGrowth | src/components/templates/TemplateViewer.tsx:302-309 | the change over the absolute earlier value, times 100, and 0 for an earlier value of 0 |
| TemplateViewer.ViewerGrowthSign | src/components/templates/TemplateViewer.tsx:302-309 | for a non-zero earlier value the growth has the sign of the change, even when that value is negative |
| TemplateViewer.ViewerCashFlowFacts | src/components/templates/TemplateViewer.tsx:285-317 | free cash flow is operating cash flow minus capex, and each growth is non-negative exactly when the figure did not fall or the earlier year is 0 |
| TemplateViewer.ViewerRevenueFacts | src/components/templates/TemplateViewer.tsx:319-338 | the same rule for revenue and net-income growth |
| TemplateViewer.GrowthToneIff | src/components/templates/TemplateViewer.tsx:302-309 | growth is non-negative exactly when the earlier value is 0 or the figure did not fall |
| TemplateViewer.SelectContent | src/components/templates/TemplateViewer.tsx:190-196 | a parsed `null` selects nothing, since reading `basicInfo` of null throws; otherwise the truthy `basicInfo` part when there is one, else the whole parsed value |
| TemplateViewer.DecodeContent | src/components/templates/TemplateViewer.tsx:186-201 | content that does not parse, or parses to `null`, yields nothing (the error path); otherwise the selected part of what it parses to |
| TemplateViewer.OrValue | src/components/templates/TemplateViewer.tsx:221-222 | `a \|\| d` on a field read gives the field exactly when it is truthy, and d otherwise |
| TemplateViewer.UpdateOf | src/components/templates/TemplateViewer.tsx:214-226 | the update holds the current data; its title and ticker are the data's `companyName` and `tickerSymbol` whenever those are truthy, whatever JSON value they hold, and otherwise the row's title and ticker (null when the row has none) |
| TemplateViewer.ViewerPage.constructor | src/components/templates/TemplateViewer.tsx:85-162 | the first render has no row, no error and is loading |
| TemplateViewer.ViewerPage.FetchTemplate | src/components/templates/TemplateViewer.tsx:170-205 | a failed query sets its message or "Failed to load template"; content that does not parse or parses to `null` sets "Error loading template data" and keeps the data shown; other non-empty content replaces the data by its selected part; empty content changes no data; loading ends |
| TemplateViewer.ViewerPage.HandleSave | src/components/templates/TemplateViewer.tsx:209-235 | without a row or a user nothing changes; otherwise the update is sent, a failure sets its message or "Failed to save changes", success leaves edit mode and fetches again, so the row, the data and the error are what that fetch makes of the refetched reply |
| CreateTemplate.OrOne | src/components/templates/CreateTemplate.tsx:184 | `x \|\| 1` is never 0: x when non-zero, 1 otherwise |
| CreateTemplate.EditorRatiosFacts | src/components/templates/CreateTemplate.tsx:181-187 | the same sums and net position as the viewer; division by the denominator when non-zero, by 1 when it is 0 |
| CreateTemplate.EditorAgainstViewerRatios | src/components/templates/CreateTemplate.tsx:184-185 | the pages agree for positive denominators and can show opposite bands when none was entered |
| CreateTemplate.EditorGrowth | src/components/templates/CreateTemplate.tsx:194-199 | the change over the signed earlier value, times 100, and the current figure times 100 when the earlier is 0 |
| CreateTemplate.EditorAgainstViewerGrowth | src/components/templates/CreateTemplate.tsx:194-199 | the editor agrees with the viewer for a positive earlier year, flips its sign for a negative one, and differs when it is 0 |
| CreateTemplate.EditorGrowthSignFlips | src/components/templates/CreateTemplate.tsx:194 | a figure that rose from a negative year shows as a fall in the editor |
| CreateTemplate.EditorAgainstViewerCashFlow | src/components/templates/CreateTemplate.tsx:190-200 | the same free cash flow as the viewer, and the same growth figures when the earlier year is positive |
| CreateTemplate.EditorAgainstViewerRevenue | src/components/templates/CreateTemplate.tsx:203-208 | the same revenue and net-income growth as the viewer when the earlier year is positive |
| CreateTemplate.FieldText | src/components/templates/CreateTemplate.tsx:237 | a text field of the form reads its entry |
| CreateTemplate.RowOf | src/components/templates/CreateTemplate.tsx:250-256 | the inserted row has the user, the company name as title, the form as content, the ticker only when entered, and no sector |
| CreateTemplate.SaveDecisionOf | src/components/templates/CreateTemplate.tsx:231-256 | refused for sign-in exactly without a user or client, refused for the name exactly when it is blank after trim, otherwise that row is inserted |
| CreateTemplate.BlankNameIsRefused | src/components/templates/CreateTemplate.tsx:237-240 | a name made only of white space is refused and nothing is inserted |
| CreateTemplate.EditorPage.constructor | src/components/templates/CreateTemplate.tsx:86-178 | the first render has the blank form, no error and nothing inserted |
| CreateTemplate.EditorPage.HandleSave | src/components/templates/CreateTemplate.tsx:231-266 | a refusal shows its message and inserts nothing; otherwise the insert is sent, and a failure shows its message or "Failed to save template" while success goes to the dashboard |
| CreateTemplate.EditorPage.HandleClearAll | src/components/templates/CreateTemplate.tsx:268-342 | when confirmed the form is blank, otherwise nothing changes |
| StripeConfig.FindByPriceIdFirst | src/stripe-config.ts:32-34 | the price lookup finds nothing exactly when no product has the price, else the first product that has it |
| StripeConfig.FindByNameFirst | src/stripe-config.ts:36-38 | the name lookup finds the first product whose name equals the query ignoring case |
| StripeConfig.FindByNameIgnoresCase | src/stripe-config.ts:37 | a query and its lowercase form find the same product |
| StripeConfig.CatalogueFacts | src/stripe-config.ts:11-30 | two US-dollar subscription products, Basic at 9.99 and Pro at 20, with distinct price ids and names |
| StripeConfig.LookupsRoundTrip | src/stripe-config.ts:11-38 | every catalogue product is found again by its price id and by its name |
| StripeConfig.LowercaseNamesFound | src/stripe-config.ts:36-38 | the lowercase plan names find Basic and Pro |
| Subscription.PlanRule | src/hooks/useSubscription.ts:53-65 | the plan leaves "free" exactly for an active record with a known price id, and is then that product's lowercase name |
| Subscription.LowercaseNames | src/hooks/useSubscription.ts:62 | a catalogue product's lowercase name is "basic" or "pro" |
| Subscription.LimitsTable | src/hooks/useSubscription.ts:72-84 | basic allows 10 templates without AI, pro any number with AI, every other plan 1 without AI |
| Subscription.SubscriptionFacts | src/hooks/useSubscription.ts:67-104 | the count or 0 is stored, AI access exactly on pro, and the create gate is open on pro, below 10 on basic, at 0 on free |
| Subscription.InactiveIsFree | src/hooks/useSubscription.ts:58 | an inactive record, or one without a price, leaves the user on free with one template |
| Subscription.ProPriceUnlocksAI | src/hooks/useSubscription.ts:58-80 | an active record at the Pro price gives unlimited templates and AI access |
| Subscription.SubscriptionHook.constructor | src/hooks/useSubscription.ts:15-22 | the hook starts on free, 0 used, one template, no AI, loading |
| Subscription.SubscriptionHook.FetchUserSubscription | src/hooks/useSubscription.ts:24-100 | no user or client leaves the state; a real billing error or a count error sets its message; otherwise the derived subscription is stored; loading always ends |
| ChatBubble.FirstMentioned | src/components/shared/ChatBubble.tsx:47-56 | the first keyword group the message mentions, and only mentioned groups before none |
| ChatBubble.RoutingPriority | src/components/shared/ChatBubble.tsx:44-58 | the reply's topic is that of the first keyword group, in priority order, the lowercased message mentions, else the default |
| ChatBubble.RoutingIgnoresCase | src/components/shared/ChatBubble.tsx:45 | a message and its lowercase form get the same reply |
| ChatBubble.TemplateWins | src/components/shared/ChatBubble.tsx:47 | "template" or "research" wins over every other keyword |
| ChatBubble.Typed | src/components/shared/ChatBubble.tsx:140 | typing changes only the input box |
| ChatBubble.Sent | src/components/shared/ChatBubble.tsx:17-42 | blank input changes nothing; otherwise the message is appended with id length + 1, the input cleared, typing shown and a reply with id length + 2 scheduled |
| ChatBubble.Delivered | src/components/shared/ChatBubble.tsx:31-40 | the oldest scheduled reply is appended with the bot's answer and typing stops |
| ChatBubble.SendThenReplyKeepsIds | src/components/shared/ChatBubble.tsx:17-42 | a send followed by its reply keeps the ids 1, 2, ..., n, and the reply answers the message |
| ChatBubble.DeliveredKeepsIds | src/components/shared/ChatBubble.tsx:33-38 | a reply whose id is the next one keeps the ids consecutive and distinct |
| ChatBubble.AppendKeepsConsecutive | src/components/shared/ChatBubble.tsx:21 | appending the next id keeps the ids consecutive and distinct |
| ChatBubble.QuickSecondSendDuplicatesId | src/components/shared/ChatBubble.tsx:21-34 | a second message sent before the first reply arrives takes that reply's id, so two messages share an id |
| ChatBubble.ChatBubbleState.constructor | src/components/shared/ChatBubble.tsx:6-15 | the list starts with the bot's greeting, id 1 |
| ChatBubble.ChatBubbleState.SetInput | src/components/shared/ChatBubble.tsx:140 | typing changes only the input box |
| ChatBubble.ChatBubbleState.HandleSendMessage | src/components/shared/ChatBubble.tsx:17-30 | the new state is the one the send step describes |
| ChatBubble.ChatBubbleState.DeliverReply | src/components/shared/ChatBubble.tsx:31-40 | the new state is the one the delivery step describes |
| ReviewsPage.NewReview | src/components/legal/ReviewsPage.tsx:42-47 | the new review has id length + 1, the draft's fields and today's date |
| ReviewsPage.InitialIds | src/components/legal/ReviewsPage.tsx:13-38 | three initial reviews with ids 1, 2, 3 |
| ReviewsPage.PrependKeepsIds | src/components/legal/ReviewsPage.tsx:42-47 | prepending keeps the ids exactly 1 to n + 1, so they stay distinct |
| ReviewsPage.ReviewsPageState.constructor | src/components/legal/ReviewsPage.tsx:7-38 | the page starts with the three reviews and the empty draft |
| ReviewsPage.ReviewsPageState.HandleSubmitReview | src/components/legal/ReviewsPage.tsx:40-49 | a draft with an empty required name, title or review field (the `required` inputs at lines 119, 142 and 156) changes nothing; otherwise the new review goes first, the others follow in order, ids stay 1 to n, the draft resets to rating 5 |
| ReviewsPage.ReviewsPageState.SetRating | src/components/legal/ReviewsPage.tsx:127-128 | clicking a star changes only the draft's rating |
| ReviewsPage.Stars | src/components/legal/ReviewsPage.tsx:51-70 | exactly five stars are drawn |
| ReviewsPage.CountFilled | src/components/legal/ReviewsPage.tsx:63 | no more stars are filled than drawn |
| ReviewsPage.StarsFacts | src/components/legal/ReviewsPage.tsx:54-63 | star k is filled exactly when k is at most the rating, filled stars come first, and their number is the rating held between 0 and 5 |
| PricingSection.ProductNamed | src/components/home/PricingSection.tsx:67 | the exact, case-sensitive name lookup finds nothing exactly when no product has the name, else a catalogue product with it |
| PricingSection.HandleGetStarted | src/components/home/PricingSection.tsx:54-81 | no user goes to sign-up, Free to the dashboard, a catalogue plan to checkout with its price and mode, anything else does nothing |
| PricingSection.CheckoutOnlyForCatalogueNames | src/components/home/PricingSection.tsx:67-75 | checkout starts exactly for a signed-in user on a plan whose exact name is in the catalogue, with that product's price |
| PricingSection.PlanButtons | src/components/home/PricingSection.tsx:12-75 | Free goes to the dashboard, Basic and Pro check out at their catalogue prices, and a lowercase name starts nothing |
| PricingSection.ButtonLabel | src/components/home/PricingSection.tsx:144-147 | Processing while loading, else Get Started without a user, else Go to Dashboard on Free, else Upgrade to the plan |
| PricingSection.LabelAgreesWithAction | src/components/home/PricingSection.tsx:54-64 | the label says Get Started exactly when the click goes to sign-up, and Go to Dashboard exactly when it goes to the dashboard |
| PricingSection.PlansFacts | src/components/home/PricingSection.tsx:12-52 | three plans, Free, Basic and Pro, five features each, only Pro highlighted |
| SupabaseClient.EnvOr | src/lib/supabase.ts:3-4 | an unset variable reads as the empty string |
| SupabaseClient.ClientOf | src/lib/supabase.ts:7-12 | a client exists exactly for a valid configuration, and is built from the two values |
| SupabaseClient.NoClientWhenUnset | src/lib/supabase.ts:3-12 | a missing variable, or any URL containing `your-project-ref` such as the placeholder project URL, leaves no client |
| SupabaseClient.SchemeRequired | src/lib/supabase.ts:7-8 | a URL that starts with neither `http://` nor `https://` is never valid, whatever the key, and a URL is valid exactly when it starts with one of them |

## Left out

- The HTTP calls to the filings search, the section extractor and the language model are not modelled. Neither is the Deno request handler with its CORS headers, or the conversion of the analysis into template fields. The calls are parameters; the handler and the conversion are plain plumbing.
- The wording of the three prompts is not modelled. Only the parts of the sections each prompt takes are (`BusinessPromptOf`, `RiskPromptOf`, `ExecutivePromptOf`).
- IEEE-754 arithmetic is not modelled: numbers are exact reals, so rounding error, overflow to `Infinity` and `toFixed`/`toLocaleString` formatting are outside the model.
- `parseFloat` is written out as a concrete function for decimal literals. It does not read the word `Infinity`: where the code gives Infinity or -Infinity, the model gives NaN. The scanner never meets the word, since it parses text cleaned down to digits and points (`FinancialParser.KeepNumeric`). The pages can: every figure is a free-text input, so a user can type "Infinity" (see the TemplateData.NumberField line).
- TemplateData.NumberField: a field whose text starts, after white space and a sign, with `Infinity` reads as 0 in the model, while the code computes with Infinity or -Infinity. A short-term debt of "Infinity" shows High Risk on the page and Low Risk in the model. The same holds for the editor's `parseFloat(x) || 0` (`JsNumber.NumberOrZero`). The calculators work on exact reals, which have no infinity.
- JsNumber.NoDigitIsNaN: stated only for text that does not contain `Infinity`, because the code reads that word as Infinity and the model does not.
- TemplateData.MissingFieldIsZero: its string case is stated only for text that does not contain `Infinity`, for the same reason.
- JsNumber.ParseFloatStopsAt: the stop character is also none of the letters of `Infinity` (I, n, f, i, t, y), because in the code such a letter can complete that word.
- JsPrelude.Prefix: `substring(0, n)` counts UTF-16 code units, while the model counts characters (Unicode scalar values). The two differ only on text with characters outside the Basic Multilingual Plane, where the model keeps more of the text than the code does.
- CompanyAnalysis.ProfileOf: the business-description test `line.length > 100` counts UTF-16 code units, while the model counts characters. A line with characters outside the Basic Multilingual Plane can pass in the code and fail in the model: 60 emoji are 120 code units but 60 characters.
- Case mapping (`toLowerCase`, `toUpperCase`, the `i` flag of the regular expressions) covers ASCII letters only.
- The chat bubble's `setTimeout` is the explicit step `DeliverReply`, taken in the order the replies were scheduled. The fixed 1500 ms delay itself is not modelled, since the model has no clock.
- The database, authentication and Stripe checkout calls are parameters, and so is `createClient` (a client is a value holding its URL and key).
- The useSubscription hook's `refreshSubscription` and its effect on the user changing are not modelled; they only call `fetchUserSubscription` again.
- The editor's render gate on `canCreateTemplate` is not modelled as a page state. The gate itself is `Subscription.CanCreateTemplate`.
- The viewer's formatting helpers and its edit-mode toggles are not modelled, because they only format or toggle a flag.
- The unrouted copies of the editor and the viewer, the dashboard, the AI-analysis page, the testimonials carousel and the static pages are not part of this model.
- CompanyAnalysis.AnalyseProjections: it does not restate the growth-0 first year. AssembleProjections states that year for every positive baseline, and AnalyseProjections only adds that an analysis always has positive baselines.
