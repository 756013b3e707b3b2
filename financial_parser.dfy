/** The label/number scanner that pulls reported figures out of SEC filing text
    (`parseFinancialData` of the generate-ai-template edge function).

    Each of the six regular expressions has the shape
        (?:LABEL | LABEL | ...)[:\s]+\$?([0-9,]+(?:\.[0-9]+)?)\s*(?:million|billion)?
    and is matched case-insensitively. The matcher below is written by hand. Every quantifier
    is greedy, and after the label no backtracking can rescue a failing match: a shorter run
    of separators leaves a separator where `$` or a digit is needed, and everything after
    `[0-9,]+` is optional. So one greedy pass gives the same match as the regex engine.
    Label alternatives are tried in the order they are written. */
module FinancialParser {
  import opened JsPrelude
  import opened JsNumber

  const RevenueLabels: seq<string> := ["revenue", "net sales", "total revenue"]
  const IncomeLabels: seq<string> := ["net income", "net earnings"]
  const CashFlowLabels: seq<string> := ["operating cash flow", "cash from operations"]
  const AssetsLabels: seq<string> := ["total assets"]
  const DebtLabels: seq<string> := ["total debt", "long-term debt"]
  const CashLabels: seq<string> := ["cash and cash equivalents", "cash and equivalents"]

  /** One match: the matched text `whole` runs from `start` to `end`; `amount` is capture group 1. */
  datatype Match = Match(start: nat, end: nat, whole: string, amount: string)

  /** Where capture group 1 lies and where the match ends, once a label has matched. */
  datatype Tail = Tail(amountStart: nat, amountEnd: nat, end: nat)

  /** Does the lower-case word occur in text at position i, ignoring ASCII case? */
  predicate WordAt(text: string, i: nat, word: string) {
    i + |word| <= |text| && ToLower(text[i..i + |word|]) == word
  }

  predicate IsSeparator(c: char) { c == ':' || IsJsSpace(c) }

  predicate IsDigitOrComma(c: char) { IsDigit(c) || c == ',' }

  /** The length of the longest run of characters satisfying p that starts at position i. */
  function RunLength(text: string, i: nat, p: char -> bool): (n: nat)
    requires i <= |text|
    ensures i + n <= |text|
    ensures forall k :: i <= k < i + n ==> p(text[k])
    ensures i + n < |text| ==> !p(text[i + n])
    decreases |text| - i
  {
    if i < |text| && p(text[i]) then 1 + RunLength(text, i + 1, p) else 0
  }

  /** Where `[0-9,]+(?:\.[0-9]+)?` ends when it starts at position a. */
  function AmountEnd(text: string, a: nat): (c: nat)
    requires a <= |text|
    ensures a + RunLength(text, a, IsDigitOrComma) <= c <= |text|
  {
    var b := a + RunLength(text, a, IsDigitOrComma);
    if b + 1 < |text| && text[b] == '.' && IsDigit(text[b + 1])
    then b + 1 + RunLength(text, b + 1, IsDigit) else b
  }

  /** Where `\s*(?:million|billion)?` ends when it starts at position c. */
  function SuffixEnd(text: string, c: nat): (e: nat)
    requires c <= |text|
    ensures c <= e <= |text|
  {
    var d := c + RunLength(text, c, IsJsSpace);
    if WordAt(text, d, "million") || WordAt(text, d, "billion") then d + 7 else d
  }

  /** The rest of the pattern after a label that ends at position j:
      `[:\s]+\$?([0-9,]+(?:\.[0-9]+)?)\s*(?:million|billion)?`. */
  function MatchTail(text: string, j: nat): (r: Option<Tail>)
    requires j <= |text|
    ensures r.Some? ==> j < r.value.amountStart < r.value.amountEnd <= r.value.end <= |text|
  {
    var k := j + RunLength(text, j, IsSeparator);
    var a := if k < |text| && text[k] == '$' then k + 1 else k;
    if k == j || RunLength(text, a, IsDigitOrComma) == 0 then None
    else
      var c := AmountEnd(text, a);
      Some(Tail(a, c, SuffixEnd(text, c)))
  }

  /** The match that starts exactly at position i, trying the label alternatives in order. */
  function MatchAt(text: string, i: nat, labels: seq<string>): (r: Option<Match>)
    requires i <= |text|
    ensures r.Some? ==> r.value.start == i < r.value.end <= |text| && r.value.whole == text[i..r.value.end]
  {
    if labels == [] then None
    else if WordAt(text, i, labels[0]) && MatchTail(text, i + |labels[0]|).Some? then
      var t := MatchTail(text, i + |labels[0]|).value;
      Some(Match(i, t.end, text[i..t.end], text[t.amountStart..t.amountEnd]))
    else MatchAt(text, i, labels[1..])
  }

  /** `text.match(re)` without the global flag: the leftmost match that starts at or after `from`
      (SearchLeftmost proves it leftmost). */
  function Search(text: string, from: nat, labels: seq<string>): (r: Option<Match>)
    requires from <= |text|
    ensures r.Some? ==> from <= r.value.start < r.value.end <= |text|
    ensures r.Some? ==> MatchAt(text, r.value.start, labels) == r
    decreases |text| - from
  {
    var m := MatchAt(text, from, labels);
    if m.Some? then m
    else if from == |text| then None
    else Search(text, from + 1, labels)
  }

  /** No match starts before the one Search finds, and when it finds none there is none at any
      position from `from` to the end of the text. */
  lemma {:induction false} SearchLeftmost(text: string, from: nat, labels: seq<string>)
    requires from <= |text|
    ensures Search(text, from, labels).Some? ==> NoMatchIn(text, from, Search(text, from, labels).value.start, labels)
    ensures Search(text, from, labels).None? ==> NoMatchIn(text, from, |text| + 1, labels)
    decreases |text| - from
  {
    if MatchAt(text, from, labels).None? && from < |text| {
      SearchLeftmost(text, from + 1, labels);
      ExtendNoMatch(text, from, Search(text, from, labels), labels);
    }
  }

  lemma ExtendNoMatch(text: string, from: nat, r: Option<Match>, labels: seq<string>)
    requires from < |text| && MatchAt(text, from, labels).None?
    requires r.Some? ==> from < r.value.start <= |text| && NoMatchIn(text, from + 1, r.value.start, labels)
    requires r.None? ==> NoMatchIn(text, from + 1, |text| + 1, labels)
    ensures r.Some? ==> NoMatchIn(text, from, r.value.start, labels)
    ensures r.None? ==> NoMatchIn(text, from, |text| + 1, labels)
  {
  }

  /** `text.match(re)` with the global flag: the leftmost match, then the leftmost match from
      where it ended, and so on. */
  function AllMatches(text: string, from: nat, labels: seq<string>): (ms: seq<Match>)
    requires from <= |text|
    ensures forall m :: m in ms ==> from <= m.start < m.end <= |text|
    decreases |text| - from
  {
    match Search(text, from, labels)
    case None => []
    case Some(m) => [m] + AllMatches(text, m.end, labels)
  }

  /** Every global match is a real match at its start position. */
  lemma {:induction false} AllMatchesSound(text: string, from: nat, labels: seq<string>)
    requires from <= |text|
    ensures forall k :: 0 <= k < |AllMatches(text, from, labels)| ==>
      MatchAt(text, AllMatches(text, from, labels)[k].start, labels) == Some(AllMatches(text, from, labels)[k])
    decreases |text| - from
  {
    var ms := AllMatches(text, from, labels);
    if ms != [] {
      var rest := AllMatches(text, ms[0].end, labels);
      assert ms == [ms[0]] + rest;
      AllMatchesSound(text, ms[0].end, labels);
      forall k | 0 < k < |ms| ensures MatchAt(text, ms[k].start, labels) == Some(ms[k]) {
        assert ms[k] == rest[k - 1];
      }
    }
  }

  /** Matches that do not overlap and come in text order. */
  predicate Ordered(ms: seq<Match>) {
    forall k :: 0 <= k < |ms| - 1 ==> ms[k].end <= ms[k + 1].start
  }

  lemma ConsOrdered(m: Match, rest: seq<Match>)
    requires Ordered(rest) && (rest != [] ==> m.end <= rest[0].start)
    ensures Ordered([m] + rest)
  {
    var ms := [m] + rest;
    forall k | 0 <= k < |ms| - 1 ensures ms[k].end <= ms[k + 1].start {
      assert ms[k + 1] == rest[k];
      if k > 0 { assert ms[k] == rest[k - 1]; }
    }
  }

  /** The global matches do not overlap and come in text order. */
  lemma {:induction false} AllMatchesOrdered(text: string, from: nat, labels: seq<string>)
    requires from <= |text|
    ensures Ordered(AllMatches(text, from, labels))
    decreases |text| - from
  {
    var ms := AllMatches(text, from, labels);
    if ms != [] {
      var rest := AllMatches(text, ms[0].end, labels);
      assert ms == [ms[0]] + rest;
      AllMatchesOrdered(text, ms[0].end, labels);
      assert rest != [] ==> rest[0] in rest;
      ConsOrdered(ms[0], rest);
    }
  }

  /** Where the scan that found the k-th global match started looking. */
  function ScanStart(ms: seq<Match>, from: nat, k: nat): nat
    requires k <= |ms|
  {
    if k == 0 then from else ms[k - 1].end
  }

  /** No match starts at any position from lo up to, but not including, hi. */
  predicate NoMatchIn(text: string, lo: nat, hi: nat, labels: seq<string>)
    requires hi <= |text| + 1
  {
    forall p :: lo <= p < hi ==> MatchAt(text, p, labels).None?
  }

  /** No match is skipped: none starts between the point where a scan started looking and the
      match it found. */
  lemma {:induction false} AllMatchesLeftmost(text: string, from: nat, labels: seq<string>)
    requires from <= |text|
    ensures forall k :: 0 <= k < |AllMatches(text, from, labels)| ==>
      NoMatchIn(text, ScanStart(AllMatches(text, from, labels), from, k), AllMatches(text, from, labels)[k].start, labels)
    decreases |text| - from
  {
    var ms := AllMatches(text, from, labels);
    SearchLeftmost(text, from, labels);
    if ms != [] {
      var rest := AllMatches(text, ms[0].end, labels);
      assert ms == [ms[0]] + rest;
      AllMatchesLeftmost(text, ms[0].end, labels);
      forall k | 0 < k < |ms| ensures NoMatchIn(text, ScanStart(ms, from, k), ms[k].start, labels) {
        assert ms[k] == rest[k - 1];
        assert ScanStart(ms, from, k) == ScanStart(rest, ms[0].end, k - 1) by {
          if k > 1 { assert ms[k - 1] == rest[k - 2]; }
        }
      }
    }
  }

  /** ... and none starts after the point where the last, unsuccessful, scan started. */
  lemma {:induction false} AllMatchesExhaustive(text: string, from: nat, labels: seq<string>)
    requires from <= |text|
    ensures NoMatchIn(text, ScanStart(AllMatches(text, from, labels), from, |AllMatches(text, from, labels)|), |text| + 1, labels)
    decreases |text| - from
  {
    var ms := AllMatches(text, from, labels);
    if ms == [] {
      SearchLeftmost(text, from, labels);
    } else {
      var rest := AllMatches(text, ms[0].end, labels);
      assert ms == [ms[0]] + rest;
      AllMatchesExhaustive(text, ms[0].end, labels);
      assert ScanStart(ms, from, |ms|) == ScanStart(rest, ms[0].end, |rest|) by {
        if rest != [] { assert ms[|ms| - 1] == rest[|rest| - 1]; }
      }
    }
  }

  /** The record `parseFinancialData` returns. Revenue only ever receives positive numbers; the
      other two lists receive whatever `parseFloat` returned, NaN included. `None` is `null`. */
  datatype FinancialData = FinancialData(
    revenue: seq<real>,
    netIncome: seq<Number>,
    operatingCashFlow: seq<Number>,
    totalAssets: Option<Number>,
    totalDebt: Option<Number>,
    cashAndEquivalents: Option<Number>)

  /** The characters `[^0-9.]` does not match. */
  predicate IsNumeric(c: char) { IsDigit(c) || c == '.' }

  /** `s.replace(/[^0-9.]/g, '')`: only digits and points are left, and every one of them is. */
  function KeepNumeric(s: string): (r: string)
    ensures forall i :: 0 <= i < |r| ==> IsNumeric(r[i])
    ensures forall i :: 0 <= i < |s| && IsNumeric(s[i]) ==> s[i] in r
  {
    var r := Filter(s, IsNumeric);
    assert forall i :: 0 <= i < |r| ==> r[i] in r;
    assert forall i :: 0 <= i < |s| ==> s[i] in s;
    r
  }

  /** The clean-up works piece by piece, so the kept characters stay in their order. */
  lemma KeepNumericAppend(a: string, b: string)
    ensures KeepNumeric(a + b) == KeepNumeric(a) + KeepNumeric(b)
  {
    FilterAppend(a, b, IsNumeric);
  }

  /** A figure as a filing writes it: the dollar sign, the thousands separator and the scale
      word are dropped, and the scale is not applied. */
  lemma AmountOfFormattedFigure()
    ensures ParseFloat(KeepNumeric("$1,234.5 million")) == Num(1234.5)
  {
    KeepNumericOfFigure();
    ParseFloatOfFigure();
  }

  lemma KeepNumericOfFigure()
    ensures KeepNumeric("$1,234.5 million") == "1234.5"
  {
    FigureParts();
    KeepNumericOfParts("$", "1", ",", "234.5", " million", "$1,234.5 million");
  }

  lemma FigureParts()
    ensures "$1,234.5 million" == "$" + "1" + "," + "234.5" + " million"
    ensures "1" + "234.5" == "1234.5"
  {
  }

  /** Text with numeric runs between runs of other characters keeps just the numeric runs. */
  lemma {:induction false} KeepNumericOfParts(a: string, b: string, c: string, d: string,
                                              e: string, s: string)
    requires forall i :: 0 <= i < |a| ==> !IsNumeric(a[i])
    requires forall i :: 0 <= i < |b| ==> IsNumeric(b[i])
    requires forall i :: 0 <= i < |c| ==> !IsNumeric(c[i])
    requires forall i :: 0 <= i < |d| ==> IsNumeric(d[i])
    requires forall i :: 0 <= i < |e| ==> !IsNumeric(e[i])
    requires s == a + b + c + d + e
    ensures KeepNumeric(s) == b + d
  {
    KeepNumericOfRun(a, b, c + d + e);
    assert a + b + c + d + e == a + b + (c + d + e);
    KeepNumericOfRun(c, d, e);
    KeepNumericOfNone(e);
    assert b + (d + []) == b + d;
  }

  /** Other characters, then a numeric run: the run is kept and the others are dropped. */
  lemma {:induction false} KeepNumericOfRun(a: string, b: string, rest: string)
    requires forall i :: 0 <= i < |a| ==> !IsNumeric(a[i])
    requires forall i :: 0 <= i < |b| ==> IsNumeric(b[i])
    ensures KeepNumeric(a + b + rest) == b + KeepNumeric(rest)
  {
    KeepNumericAppend(a + b, rest);
    KeepNumericAppend(a, b);
    KeepNumericOfNone(a);
    KeepNumericOfNumeric(b);
  }

  lemma ParseFloatOfFigure()
    ensures ParseFloat("1234.5") == Num(1234.5)
  {
    FigurePieces();
    ParseFloatOfPoint("1234", "5");
    DecimalOfFigure();
  }

  lemma FigurePieces()
    ensures "1234" + "." + "5" == "1234.5"
  {
  }

  lemma DecimalOfFigure()
    ensures DecimalValue("1234", "5") == 1234.5
  {
    assert DigitsValue("1234") == 1234 by {
      assert "1234"[..3] == "123" && "123"[..2] == "12" && "12"[..1] == "1" && "1"[..0] == "";
    }
    assert FractionValue("5") == 0.5 by { assert "5"[1..] == ""; }
  }

  lemma {:induction false} KeepNumericOfNumeric(s: string)
    requires forall i :: 0 <= i < |s| ==> IsNumeric(s[i])
    ensures KeepNumeric(s) == s
  {
    if s != [] {
      assert IsNumeric(s[0]);
      KeepNumericOfNumeric(s[1..]);
    }
  }

  lemma {:induction false} KeepNumericOfNone(s: string)
    requires forall i :: 0 <= i < |s| ==> !IsNumeric(s[i])
    ensures KeepNumeric(s) == ""
  {
    if s != [] {
      assert !IsNumeric(s[0]);
      KeepNumericOfNone(s[1..]);
    }
  }

  /** `parseFloat(match.replace(/[^0-9.]/g, ''))` for a match of a global expression. */
  function Amount(m: Match): Number {
    ParseFloat(KeepNumeric(m.whole))
  }

  /** A figure read from a filing is never negative: only digits and the decimal point survive
      the clean-up, so `parseFloat` sees no sign. */
  lemma CleanedAmountNonNegative(s: string)
    ensures ParseFloat(KeepNumeric(s)).Num? ==> ParseFloat(KeepNumeric(s)).value >= 0.0
  {
    ParseFloatNonNegative(KeepNumeric(s));
  }

  /** The amounts of the matches ms, in order: what the net-income and cash-flow `forEach` loops
      push. */
  function Amounts(ms: seq<Match>): seq<Number> {
    MapSeq(ms, Amount)
  }

  /** The numbers of ns that are > 0, in order. */
  function Positives(ns: seq<Number>): seq<real> {
    if ns == [] then []
    else
      var a := ns[|ns| - 1];
      Positives(ns[..|ns| - 1]) + (if a.Num? && a.value > 0.0 then [a.value] else [])
  }

  /** What the revenue `forEach` pushes for the matches ms: the amounts that are > 0, in order. */
  function PositiveAmounts(ms: seq<Match>): seq<real> {
    Positives(Amounts(ms))
  }

  /** A single-valued fact: `parseFloat(m[1].replace(/[^0-9.]/g, ''))`, or null without a match. */
  function FirstAmount(m: Option<Match>): Option<Number> {
    match m
    case None => None
    case Some(x) => Some(ParseFloat(KeepNumeric(x.amount)))
  }

  /** The result of `parseFinancialData(text)`. */
  function FinancialDataOf(text: string): FinancialData {
    FinancialData(
      PositiveAmounts(AllMatches(text, 0, RevenueLabels)),
      Amounts(AllMatches(text, 0, IncomeLabels)),
      Amounts(AllMatches(text, 0, CashFlowLabels)),
      FirstAmount(Search(text, 0, AssetsLabels)),
      FirstAmount(Search(text, 0, DebtLabels)),
      FirstAmount(Search(text, 0, CashLabels)))
  }

  lemma PositivesSnoc(ns: seq<Number>, a: Number)
    ensures Positives(ns + [a]) == Positives(ns) + (if a.Num? && a.value > 0.0 then [a.value] else [])
  {
    assert (ns + [a])[..|ns|] == ns;
  }

  lemma {:induction false} PositiveAmountsSnoc(ms: seq<Match>, i: nat)
    requires i < |ms|
    ensures var a := Amount(ms[i]);
            Positives(Amounts(ms[..i + 1]))
              == Positives(Amounts(ms[..i])) + (if a.Num? && a.value > 0.0 then [a.value] else [])
  {
    MapSeqSnoc(ms, Amount, i);
    PositivesSnoc(Amounts(ms[..i]), Amount(ms[i]));
  }

  /** The revenue `forEach`: push the amount of each match when it is > 0. */
  method PushPositiveAmounts(ms: seq<Match>) returns (values: seq<real>)
    ensures values == PositiveAmounts(ms)
  {
    values := [];
    var i := 0;
    while i < |ms|
      invariant 0 <= i <= |ms|
      invariant values == Positives(Amounts(ms[..i]))
    {
      var amount := Amount(ms[i]);
      if amount.Num? && amount.value > 0.0 {
        values := values + [amount.value];
      }
      PositiveAmountsSnoc(ms, i);
      i := i + 1;
    }
    assert ms[..i] == ms;
  }

  /** The net-income and cash-flow `forEach` loops: push the amount of every match. */
  method PushAmounts(ms: seq<Match>) returns (values: seq<Number>)
    ensures values == Amounts(ms)
  {
    values := [];
    var i := 0;
    while i < |ms|
      invariant 0 <= i <= |ms|
      invariant values == Amounts(ms[..i])
    {
      values := values + [Amount(ms[i])];
      MapSeqSnoc(ms, Amount, i);
      i := i + 1;
    }
    assert ms[..i] == ms;
  }

  /** `parseFinancialData`: start from empty lists and null facts, push the amounts of every
      match into the three lists, then set each single-valued fact from its first match. */
  method ParseFinancialData(text: string) returns (fd: FinancialData)
    ensures fd == FinancialDataOf(text)
  {
    fd := FinancialData([], [], [], None, None, None);
    var revenue := PushPositiveAmounts(AllMatches(text, 0, RevenueLabels));
    fd := fd.(revenue := revenue);
    var netIncome := PushAmounts(AllMatches(text, 0, IncomeLabels));
    fd := fd.(netIncome := netIncome);
    var operatingCashFlow := PushAmounts(AllMatches(text, 0, CashFlowLabels));
    fd := fd.(operatingCashFlow := operatingCashFlow);

    var assetsMatch := Search(text, 0, AssetsLabels);
    if assetsMatch.Some? {
      fd := fd.(totalAssets := Some(ParseFloat(KeepNumeric(assetsMatch.value.amount))));
    }
    var debtMatch := Search(text, 0, DebtLabels);
    if debtMatch.Some? {
      fd := fd.(totalDebt := Some(ParseFloat(KeepNumeric(debtMatch.value.amount))));
    }
    var cashMatch := Search(text, 0, CashLabels);
    if cashMatch.Some? {
      fd := fd.(cashAndEquivalents := Some(ParseFloat(KeepNumeric(cashMatch.value.amount))));
    }
  }

  /** Every number kept is positive and comes from the list; no positive number of the list is
      dropped. */
  lemma {:induction false} PositivesExactly(ns: seq<Number>)
    ensures forall v :: v in Positives(ns) ==> v > 0.0 && Num(v) in ns
    ensures forall n :: n in ns && n.Num? && n.value > 0.0 ==> n.value in Positives(ns)
  {
    if ns != [] {
      var init := ns[..|ns| - 1];
      PositivesExactly(init);
      assert ns == init + [ns[|ns| - 1]];
      assert forall n :: n in ns ==> n in init || n == ns[|ns| - 1];
    }
  }

  /** Each figure the revenue loop keeps for the matches ms is positive and is the amount of one
      of them, and no positive amount is dropped. */
  lemma PositiveAmountsExactly(ms: seq<Match>)
    ensures forall v :: v in PositiveAmounts(ms) ==>
      v > 0.0 && exists k :: 0 <= k < |ms| && Amount(ms[k]) == Num(v)
    ensures forall m :: m in ms && Amount(m).Num? && Amount(m).value > 0.0 ==> Amount(m).value in PositiveAmounts(ms)
  {
    var ns := Amounts(ms);
    PositivesExactly(ns);
    forall v | v in Positives(ns)
      ensures exists k :: 0 <= k < |ms| && Amount(ms[k]) == Num(v)
    {
      var k :| 0 <= k < |ns| && ns[k] == Num(v);
    }
    forall m | m in ms && Amount(m).Num? && Amount(m).value > 0.0 ensures Amount(m).value in Positives(ns) {
      var k :| 0 <= k < |ms| && ms[k] == m;
      assert ns[k] in ns;
    }
  }

  /** Revenue keeps exactly the positive amounts of the revenue matches. */
  lemma RevenueFacts(text: string)
    ensures FinancialDataOf(text).revenue == PositiveAmounts(AllMatches(text, 0, RevenueLabels))
    ensures forall v :: v in FinancialDataOf(text).revenue ==> v > 0.0
    ensures forall m :: m in AllMatches(text, 0, RevenueLabels) && Amount(m).Num? && Amount(m).value > 0.0 ==>
      Amount(m).value in FinancialDataOf(text).revenue
  {
    var ms := AllMatches(text, 0, RevenueLabels);
    assert FinancialDataOf(text).revenue == PositiveAmounts(ms);
    PositiveAmountsExactly(ms);
  }

  /** Net income and operating cash flow keep one entry per match, in order, zero and NaN
      included, and no entry is negative. */
  lemma AmountListFacts(ms: seq<Match>)
    ensures |Amounts(ms)| == |ms|
    ensures forall k :: 0 <= k < |ms| ==> Amounts(ms)[k] == Amount(ms[k])
    ensures forall k :: 0 <= k < |ms| && Amounts(ms)[k].Num? ==> Amounts(ms)[k].value >= 0.0
  {
    forall k | 0 <= k < |ms| ensures Amounts(ms)[k].Num? ==> Amounts(ms)[k].value >= 0.0 {
      CleanedAmountNonNegative(ms[k].whole);
    }
  }

  /** A single-valued fact is null exactly when its expression has no match, otherwise it is
      read from capture group 1 of the first match, and it is never negative. */
  lemma FirstAmountFacts(text: string, labels: seq<string>)
    ensures FirstAmount(Search(text, 0, labels)).None? <==> AllMatches(text, 0, labels) == []
    ensures AllMatches(text, 0, labels) != [] ==>
      FirstAmount(Search(text, 0, labels)) == Some(ParseFloat(KeepNumeric(AllMatches(text, 0, labels)[0].amount)))
    ensures FirstAmount(Search(text, 0, labels)).Some? && FirstAmount(Search(text, 0, labels)).value.Num? ==>
      FirstAmount(Search(text, 0, labels)).value.value >= 0.0
  {
    var m := Search(text, 0, labels);
    if m.Some? { CleanedAmountNonNegative(m.value.amount); }
  }
}
