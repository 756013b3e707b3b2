/** JavaScript numbers as the modelled code produces and consumes them, and the global
    `parseFloat`. Arithmetic is exact (over `real`): IEEE-754 rounding is not modelled. */
module JsNumber {
  import opened JsPrelude

  /** A JavaScript number: NaN or a finite value. */
  datatype Number = NaN | Num(value: real)

  /** JavaScript truthiness of a number: NaN and 0 are falsy, every other number is truthy. */
  predicate Truthy(n: Number) {
    n.Num? && n.value != 0.0
  }

  /** `n || d`, with d a number literal. */
  function OrNumber(n: Number, d: real): (r: real)
    ensures Truthy(n) ==> r == n.value
    ensures !Truthy(n) ==> r == d
  {
    if Truthy(n) then n.value else d
  }

  function DigitValue(c: char): (d: nat)
    requires IsDigit(c)
    ensures d < 10
  {
    c as int - '0' as int
  }

  predicate AllDigits(s: string) {
    forall i :: 0 <= i < |s| ==> IsDigit(s[i])
  }

  /** The number of decimal digits at the start of s. */
  function LeadingDigits(s: string): (n: nat)
    ensures n <= |s| && AllDigits(s[..n])
    ensures n < |s| ==> !IsDigit(s[n])
  {
    if s != [] && IsDigit(s[0]) then
      var n := 1 + LeadingDigits(s[1..]);
      assert s[..n] == [s[0]] + s[1..][..n - 1];
      n
    else 0
  }

  /** The integer a string of decimal digits denotes. */
  function DigitsValue(ds: string): nat
    requires AllDigits(ds)
  {
    if ds == [] then 0 else 10 * DigitsValue(ds[..|ds| - 1]) + DigitValue(ds[|ds| - 1])
  }

  /** The value of the digits after a decimal point: "25" stands for 0.25. */
  function FractionValue(ds: string): (v: real)
    requires AllDigits(ds)
    ensures 0.0 <= v <= 1.0
  {
    if ds == [] then 0.0 else (DigitValue(ds[0]) as real + FractionValue(ds[1..])) / 10.0
  }

  /** The value of the decimal literal `ds.fs`: integer digits ds, fraction digits fs. */
  function DecimalValue(ds: string, fs: string): real
    requires AllDigits(ds) && AllDigits(fs)
  {
    DigitsValue(ds) as real + FractionValue(fs)
  }

  /** 10 to the power e, for any integer e. */
  function Pow10(e: int): (r: real)
    ensures r > 0.0
    decreases if e < 0 then -e else e
  {
    if e == 0 then 1.0
    else if e > 0 then 10.0 * Pow10(e - 1)
    else 0.1 * Pow10(e + 1)
  }

  /** The exponent an exponent part `e[+-]digits` at the start of s stands for, and 0 when s
      does not start with a complete exponent part (then `parseFloat` stops before the 'e'). */
  function ExponentOf(s: string): int {
    if s != [] && (s[0] == 'e' || s[0] == 'E') then
      var signed := |s| > 1 && (s[1] == '-' || s[1] == '+');
      var ds := if signed then s[2..] else s[1..];
      var k := LeadingDigits(ds);
      if k == 0 then 0
      else if signed && s[1] == '-' then -(DigitsValue(ds[..k]) as int)
      else DigitsValue(ds[..k])
    else 0
  }

  /** The value of the longest prefix of u (already stripped of white space and sign) that is
      an unsigned decimal literal `digits [. digits] [exponent]` or `. digits [exponent]`. */
  function ParseUnsigned(u: string): Number {
    var n := LeadingDigits(u);
    var rest := u[n..];
    if rest != [] && rest[0] == '.' then
      var f := LeadingDigits(rest[1..]);
      if n == 0 && f == 0 then NaN
      else Num(Scaled(DecimalValue(u[..n], rest[1..][..f]), rest[1 + f..]))
    else if n == 0 then NaN
    else Num(Scaled(DigitsValue(u[..n]) as real, rest))
  }

  /** m shifted by e decimal places: m times 10 to the power e (ScaleIsProduct). */
  function Scale(m: real, e: int): (r: real)
    ensures m >= 0.0 ==> r >= 0.0
    decreases if e < 0 then -e else e
  {
    if e == 0 then m
    else if e > 0 then 10.0 * Scale(m, e - 1)
    else 0.1 * Scale(m, e + 1)
  }

  lemma {:induction false} ScaleIsProduct(m: real, e: int)
    ensures Scale(m, e) == m * Pow10(e)
    decreases if e < 0 then -e else e
  {
    if e > 0 {
      ScaleIsProduct(m, e - 1);
      MulShift(m, Pow10(e - 1), 10.0);
    } else if e < 0 {
      ScaleIsProduct(m, e + 1);
      MulShift(m, Pow10(e + 1), 0.1);
    }
  }

  lemma MulShift(m: real, q: real, c: real)
    ensures c * (m * q) == m * (c * q)
  {
  }

  /** A mantissa scaled by the exponent part that may follow it. */
  function Scaled(mantissa: real, after: string): (r: real)
    ensures mantissa >= 0.0 ==> r >= 0.0
  {
    Scale(mantissa, ExponentOf(after))
  }

  lemma MulPositive(a: real, b: real)
    ensures a > 0.0 && b > 0.0 ==> a * b > 0.0
  {
  }

  /** `parseFloat(s)`: skip leading white space, read an optional sign, then the longest
      decimal literal; NaN when there is none. */
  function ParseFloat(s: string): (n: Number) {
    var t := TrimStart(s);
    if t != [] && t[0] == '-' then Negated(ParseUnsigned(t[1..]))
    else if t != [] && t[0] == '+' then ParseUnsigned(t[1..])
    else ParseUnsigned(t)
  }

  /** `-n` for a parsed number: NaN stays NaN. */
  function Negated(n: Number): Number {
    if n.Num? then Num(-n.value) else n
  }

  /** `parseFloat(s) || 0`: the value the calculators use for a form field. */
  function NumberOrZero(s: string): real {
    OrNumber(ParseFloat(s), 0.0)
  }

  /** A string that starts with a digit or a decimal point has no sign and no leading white
      space, so it never parses to a negative number. */
  lemma {:induction false} ParseFloatNonNegative(s: string)
    requires s == [] || IsDigit(s[0]) || s[0] == '.'
    ensures ParseFloat(s).Num? ==> ParseFloat(s).value >= 0.0
  {
    ParseFloatUnsigned(s);
    ParseUnsignedNonNegative(s);
  }

  /** Such a string is read by the unsigned-literal parser alone. */
  lemma {:induction false} ParseFloatUnsigned(s: string)
    requires s == [] || IsDigit(s[0]) || s[0] == '.'
    ensures ParseFloat(s) == ParseUnsigned(s)
  {
    assert TrimStart(s) == s by {
      if s != [] { assert !IsJsSpace(s[0]); }
    }
  }

  /** An unsigned literal denotes a number that is not negative. */
  lemma ParseUnsignedNonNegative(u: string)
    ensures ParseUnsigned(u).Num? ==> ParseUnsigned(u).value >= 0.0
  {
  }

  /** A string with no digit that does not spell `Infinity` parses to NaN: `parseFloat`
      needs at least one digit, or that word. */
  lemma {:induction false} NoDigitIsNaN(s: string)
    requires forall i :: 0 <= i < |s| ==> !IsDigit(s[i])
    requires !Contains(s, "Infinity")
    ensures ParseFloat(s) == NaN
  {
    var t := TrimStart(s);
    var u := if t != [] && (t[0] == '-' || t[0] == '+') then t[1..] else t;
    assert LeadingDigits(u) == 0 by { if u != [] { assert u[0] in s; } }
    var rest := u;
    if rest != [] && rest[0] == '.' {
      assert LeadingDigits(rest[1..]) == 0 by { if |rest| > 1 { assert rest[1] in s; } }
    }
  }

  /** The decimal numeral of a natural number, as `String(n)` writes it. */
  function NatToString(n: nat): (s: string)
    ensures s != [] && AllDigits(s)
  {
    var d := ['0' + (n % 10) as char];
    if n < 10 then d else NatToString(n / 10) + d
  }

  lemma {:induction false} DigitsOfNatToString(n: nat)
    ensures DigitsValue(NatToString(n)) == n
  {
    var s := NatToString(n);
    if n >= 10 {
      DigitsOfNatToString(n / 10);
      assert s[..|s| - 1] == NatToString(n / 10);
    }
  }

  /** Writing a natural number in decimal and parsing it back gives the number. */
  lemma {:induction false} ParseFloatNatToString(n: nat)
    ensures ParseFloat(NatToString(n)) == Num(n as real)
  {
    var s := NatToString(n);
    assert TrimStart(s) == s;
    DigitsOfNatToString(n);
    ParseUnsignedOfDigits(s);
  }

  lemma {:induction false} ParseUnsignedOfDigits(s: string)
    requires s != [] && AllDigits(s)
    ensures ParseUnsigned(s) == Num(DigitsValue(s) as real)
  {
    LeadingDigitsOfDigits(s);
    assert s[..|s|] == s;
    assert s[|s|..] == [];
    assert Scaled(DigitsValue(s) as real, []) == DigitsValue(s) as real by {
      assert ExponentOf([]) == 0;
    }
  }

  lemma {:induction false} LeadingDigitsOfDigits(s: string)
    requires AllDigits(s)
    ensures LeadingDigits(s) == |s|
  {
    if s != [] { LeadingDigitsOfDigits(s[1..]); }
  }

  /** x with the sign written before it applied. */
  function Signed(sign: string, x: real): real {
    if sign == "-" then -x else x
  }

  /** The integer that digits es after an optional sign esign stand for. */
  function SignedDigits(esign: string, es: string): int
    requires AllDigits(es)
  {
    if esign == "-" then -(DigitsValue(es) as int) else DigitsValue(es)
  }

  /** `parseFloat` of white space, an optional sign, a decimal literal `ds.fs` with an exponent
      part and then anything that cannot continue the literal: the white space is skipped, the
      sign applies to the whole value, the exponent scales the mantissa and the rest is ignored. */
  lemma {:induction false} ParseFloatOfLiteral(ws: string, sign: string, ds: string, fs: string, marker: char,
                            esign: string, es: string, junk: string)
    requires forall i :: 0 <= i < |ws| ==> IsJsSpace(ws[i])
    requires sign == "" || sign == "-" || sign == "+"
    requires ds != [] && AllDigits(ds) && AllDigits(fs)
    requires marker == 'e' || marker == 'E'
    requires esign == "" || esign == "-" || esign == "+"
    requires es != [] && AllDigits(es)
    requires junk == [] || !IsDigit(junk[0])
    ensures ParseFloat(ws + sign + ds + "." + fs + [marker] + esign + es + junk)
              == Num(Signed(sign, Scale(DecimalValue(ds, fs), SignedDigits(esign, es))))
  {
    var e := SignedDigits(esign, es);
    var x := Scale(DecimalValue(ds, fs), e);
    ParseUnsignedOfExponent(ds, fs, marker, esign, es, junk, e, x);
    ParseFloatOfPieces(ws, sign, ds, fs, marker, esign, es, junk, x);
  }

  /** `parseFloat` of white space, a sign and an unsigned literal, given in pieces, that
      stands for x. */
  lemma {:induction false} ParseFloatOfPieces(ws: string, sign: string, ds: string, fs: string,
                                              marker: char, esign: string, es: string,
                                              junk: string, x: real)
    requires forall i :: 0 <= i < |ws| ==> IsJsSpace(ws[i])
    requires sign == "" || sign == "-" || sign == "+"
    requires ds != [] && IsDigit(ds[0])
    requires ParseUnsigned(ds + "." + fs + ([marker] + esign + es + junk)) == Num(x)
    ensures ParseFloat(ws + sign + ds + "." + fs + [marker] + esign + es + junk)
              == Num(Signed(sign, x))
  {
    var u := ds + "." + fs + ([marker] + esign + es + junk);
    assert u[0] == ds[0];
    ParseFloatOfValue(ws, sign, u, x);
    LiteralPieces(ws, sign, ds, fs, marker, esign, es, junk);
  }

  /** `parseFloat` of white space, an optional sign and a decimal literal `ds.fs` followed by
      anything that cannot continue it: the value of `ds.fs` with the sign applied. */
  lemma {:induction false} ParseFloatOfDecimal(ws: string, sign: string, ds: string, fs: string,
                                               junk: string)
    requires forall i :: 0 <= i < |ws| ==> IsJsSpace(ws[i])
    requires sign == "" || sign == "-" || sign == "+"
    requires ds != [] && AllDigits(ds) && AllDigits(fs)
    requires junk == [] || !(IsDigit(junk[0]) || junk[0] == 'e' || junk[0] == 'E')
    ensures ParseFloat(ws + sign + ds + "." + fs + junk) == Num(Signed(sign, DecimalValue(ds, fs)))
  {
    var x := DecimalValue(ds, fs);
    ParseUnsignedOfPlainDecimal(ds, fs, junk, x);
    DecimalPieces(ws, sign, ds, fs, junk, x);
  }

  /** A decimal literal `ds.fs` alone: `parseFloat` gives its value. */
  lemma {:induction false} ParseFloatOfPoint(ds: string, fs: string)
    requires ds != [] && AllDigits(ds) && AllDigits(fs)
    ensures ParseFloat(ds + "." + fs) == Num(DecimalValue(ds, fs))
  {
    ParseFloatOfDecimal("", "", ds, fs, "");
    PointPieces(ds, fs);
  }

  lemma {:induction false} PointPieces(ds: string, fs: string)
    ensures "" + "" + ds + "." + fs + "" == ds + "." + fs
  {
  }

  lemma {:induction false} ParseUnsignedOfPlainDecimal(ds: string, fs: string, junk: string, x: real)
    requires ds != [] && AllDigits(ds) && AllDigits(fs)
    requires junk == [] || !(IsDigit(junk[0]) || junk[0] == 'e' || junk[0] == 'E')
    requires x == DecimalValue(ds, fs)
    ensures ParseUnsigned(ds + "." + fs + junk) == Num(x)
  {
    ParseUnsignedOfDecimal(ds, fs, junk);
    assert ExponentOf(junk) == 0;
    assert Scale(x, 0) == x;
  }

  lemma {:induction false} DecimalPieces(ws: string, sign: string, ds: string, fs: string,
                                         junk: string, x: real)
    requires forall i :: 0 <= i < |ws| ==> IsJsSpace(ws[i])
    requires sign == "" || sign == "-" || sign == "+"
    requires ds != [] && IsDigit(ds[0])
    requires ParseUnsigned(ds + "." + fs + junk) == Num(x)
    ensures ParseFloat(ws + sign + ds + "." + fs + junk) == Num(Signed(sign, x))
  {
    var u := ds + "." + fs + junk;
    assert u[0] == ds[0];
    ParseFloatOfValue(ws, sign, u, x);
    DecimalRegroup(ws, sign, ds, fs, junk);
  }

  lemma {:induction false} DecimalRegroup(ws: string, sign: string, ds: string, fs: string,
                                          junk: string)
    ensures ws + sign + ds + "." + fs + junk == ws + sign + (ds + "." + fs + junk)
  {
  }

  /** The unsigned literal `ds.fs` with an exponent part stands for `ds.fs` scaled by it. */
  lemma {:induction false} ParseUnsignedOfExponent(ds: string, fs: string, marker: char,
                                                   esign: string, es: string, junk: string,
                                                   e: int, x: real)
    requires ds != [] && AllDigits(ds) && AllDigits(fs)
    requires marker == 'e' || marker == 'E'
    requires esign == "" || esign == "-" || esign == "+"
    requires es != [] && AllDigits(es)
    requires junk == [] || !IsDigit(junk[0])
    requires e == SignedDigits(esign, es)
    requires x == Scale(DecimalValue(ds, fs), e)
    ensures ParseUnsigned(ds + "." + fs + ([marker] + esign + es + junk)) == Num(x)
  {
    ExponentOfDigits(marker, esign, es, junk);
    ParseUnsignedOfDecimal(ds, fs, [marker] + esign + es + junk);
  }

  lemma {:induction false} LiteralPieces(ws: string, sign: string, ds: string, fs: string,
                                         marker: char, esign: string, es: string, junk: string)
    ensures ws + sign + ds + "." + fs + [marker] + esign + es + junk
              == ws + sign + (ds + "." + fs + ([marker] + esign + es + junk))
  {
  }

  /** `parseFloat` of white space, a sign and an unsigned literal standing for x. */
  lemma {:induction false} ParseFloatOfValue(ws: string, sign: string, u: string, x: real)
    requires forall i :: 0 <= i < |ws| ==> IsJsSpace(ws[i])
    requires sign == "" || sign == "-" || sign == "+"
    requires u != [] && (IsDigit(u[0]) || u[0] == '.')
    requires ParseUnsigned(u) == Num(x)
    ensures ParseFloat(ws + sign + u) == Num(Signed(sign, x))
  {
    ParseFloatOfSigned(ws, sign, u);
    if sign == "-" {
      assert Signed(sign, x) == -x;
    } else {
      assert Signed(sign, x) == x;
    }
  }

  /** `parseFloat` skips the white space ws and applies the sign to the literal u after it. */
  lemma {:induction false} ParseFloatOfSigned(ws: string, sign: string, u: string)
    requires forall i :: 0 <= i < |ws| ==> IsJsSpace(ws[i])
    requires sign == "" || sign == "-" || sign == "+"
    requires u != [] && (IsDigit(u[0]) || u[0] == '.')
    ensures ParseFloat(ws + sign + u)
              == if sign == "-" && ParseUnsigned(u).Num? then Num(-ParseUnsigned(u).value)
                 else ParseUnsigned(u)
  {
    var t := sign + u;
    assert ws + sign + u == ws + t;
    assert t[0] == if sign == "" then u[0] else sign[0];
    TrimStartOfSpaces(ws, t);
    var signed := t[0] == '-' || t[0] == '+';
    assert signed <==> sign != "";
    if signed { assert t[1..] == u; } else { assert t == u; }
  }

  /** The unsigned part: digits, a point, fraction digits and whatever follows. */
  lemma {:induction false} ParseUnsignedOfDecimal(ds: string, fs: string, after: string)
    requires ds != [] && AllDigits(ds) && AllDigits(fs)
    requires after == [] || !IsDigit(after[0])
    ensures ParseUnsigned(ds + "." + fs + after) == Num(Scaled(DecimalValue(ds, fs), after))
  {
    DecimalPositions(ds, fs, after);
    ParseUnsignedAtPoint(ds + "." + fs + after, |ds|, |fs|, DecimalValue(ds, fs), after);
  }

  /** Where the pieces of `ds.fs` followed by other text lie. */
  lemma {:induction false} DecimalPositions(ds: string, fs: string, after: string)
    requires ds != [] && AllDigits(ds) && AllDigits(fs)
    requires after == [] || !IsDigit(after[0])
    ensures var u := ds + "." + fs + after;
            LeadingDigits(u) == |ds| < |u| && u[|ds|] == '.' && u[..|ds|] == ds &&
            LeadingDigits(u[|ds| + 1..]) == |fs| && u[|ds| + 1..][..|fs|] == fs &&
            u[|ds| + 1 + |fs|..] == after
  {
    var rest := "." + fs + after;
    assert rest[0] == '.' && rest[1..] == fs + after;
    assert ds + "." + fs + after == ds + rest;
    DigitsThen(ds, rest);
    DigitsThen(fs, after);
  }

  /** The digits at the start of `ds + rest` are exactly ds when rest does not start with one. */
  lemma {:induction false} DigitsThen(ds: string, rest: string)
    requires AllDigits(ds) && (rest == [] || !IsDigit(rest[0]))
    ensures LeadingDigits(ds + rest) == |ds|
    ensures (ds + rest)[..|ds|] == ds && (ds + rest)[|ds|..] == rest
  {
    LeadingDigitsOfDigitsThen(ds, rest);
  }

  /** `parseFloat`'s reading of n integer digits, a point and f fraction digits, by position. */
  lemma {:induction false} ParseUnsignedAtPoint(u: string, n: nat, f: nat, mantissa: real, after: string)
    requires n == LeadingDigits(u) && 0 < n < |u| && u[n] == '.'
    requires f == LeadingDigits(u[n + 1..])
    requires mantissa == DecimalValue(u[..n], u[n + 1..][..f])
    requires after == u[n + 1 + f..]
    ensures ParseUnsigned(u) == Num(Scaled(mantissa, after))
  {
    assert u[n..][1..] == u[n + 1..];
    assert u[n..][1 + f..] == u[n + 1 + f..];
  }

  /** An exponent part `e[+-]digits` followed by a non-digit stands for its signed digits. */
  lemma {:induction false} ExponentOfDigits(marker: char, esign: string, es: string, junk: string)
    requires marker == 'e' || marker == 'E'
    requires esign == "" || esign == "-" || esign == "+"
    requires es != [] && AllDigits(es)
    requires junk == [] || !IsDigit(junk[0])
    ensures ExponentOf([marker] + esign + es + junk)
              == SignedDigits(esign, es)
  {
    var s := [marker] + esign + es + junk;
    LeadingDigitsOfDigitsThen(es, junk);
    assert (es + junk)[..|es|] == es;
    if esign == "" {
      assert s[1..] == es + junk;
    } else {
      assert s[1] == esign[0];
      assert s[2..] == es + junk;
    }
  }

  lemma ParseFloatOfSignedExponent()
    ensures ParseFloat(" -1.5e2px") == Num(-150.0)
  {
    assert " -1.5e2px" == " " + "-" + "1" + "." + "5" + ['e'] + "" + "2" + "px";
    ParseFloatOfLiteral(" ", "-", "1", "5", 'e', "", "2", "px");
    assert DigitsValue("1") == 1 by { assert "1"[..0] == ""; }
    assert FractionValue("5") == 0.5 by { assert "5"[1..] == ""; }
    assert DigitsValue("2") == 2 by { assert "2"[..0] == ""; }
    assert DecimalValue("1", "5") == 1.5;
    assert Scale(1.5, 2) == 150.0;
  }

  lemma {:induction false} LeadingDigitsOfDigitsThen(ds: string, rest: string)
    requires AllDigits(ds) && (rest == [] || !IsDigit(rest[0]))
    ensures LeadingDigits(ds + rest) == |ds|
  {
    if ds != [] {
      assert (ds + rest)[1..] == ds[1..] + rest;
      LeadingDigitsOfDigitsThen(ds[1..], rest);
    }
  }

  /** `parseFloat` stops at the first character that cannot continue the literal:
      digits followed by anything other than a digit, '.', 'e' or 'E' give the digits' value. */
  lemma {:induction false} ParseFloatDigitsThenJunk(ds: string, junk: string)
    requires ds != [] && AllDigits(ds)
    requires junk == [] || !(IsDigit(junk[0]) || junk[0] == '.' || junk[0] == 'e' || junk[0] == 'E')
    ensures ParseFloat(ds + junk) == Num(DigitsValue(ds) as real)
  {
    var s := ds + junk;
    ParseFloatUnsigned(s);
    ParseUnsignedDigitsThenJunk(ds, junk);
  }

  lemma {:induction false} ParseUnsignedDigitsThenJunk(ds: string, junk: string)
    requires ds != [] && AllDigits(ds)
    requires junk == [] || !(IsDigit(junk[0]) || junk[0] == '.' || junk[0] == 'e' || junk[0] == 'E')
    ensures ParseUnsigned(ds + junk) == Num(DigitsValue(ds) as real)
  {
    var s := ds + junk;
    LeadingDigitsOfDigitsThen(ds, junk);
    assert s[..|ds|] == ds;
    assert s[|ds|..] == junk;
    assert ExponentOf(junk) == 0;
  }

  /** A literal without an integer part: `parseFloat("." + ds)` is the fraction ds stands for. */
  lemma {:induction false} ParseFloatOfLeadingFraction(ds: string)
    requires ds != [] && AllDigits(ds)
    ensures ParseFloat("." + ds) == Num(FractionValue(ds))
  {
    ParseFloatUnsigned("." + ds);
    ParseUnsignedOfLeadingFraction(ds);
  }

  lemma {:induction false} ParseUnsignedOfLeadingFraction(ds: string)
    requires ds != [] && AllDigits(ds)
    ensures ParseUnsigned("." + ds) == Num(FractionValue(ds))
  {
    var s := "." + ds;
    assert LeadingDigits(s) == 0;
    assert s[0..] == s && s[1..] == ds;
    LeadingDigitsOfDigits(ds);
    assert ds[..|ds|] == ds;
    assert s[..0] == [];
    assert s[1 + |ds|..] == [];
    assert ExponentOf([]) == 0;
  }

  /** A character no decimal literal can continue with, and no sign or white space either:
      a comma, a letter outside "e", "E" and the word `Infinity`, and so on. */
  predicate CannotContinue(c: char) {
    !IsDigit(c) && c != '.' && c != 'e' && c != 'E' && c != '+' && c != '-' && !IsJsSpace(c) &&
    c != 'I' && c != 'n' && c != 'f' && c != 'i' && c != 't' && c != 'y'
  }

  /** `parseFloat` never looks past a character that cannot continue the literal: whatever
      follows it, the text before it parses to the same result. */
  lemma {:induction false} ParseFloatStopsAt(s: string, x: string)
    requires x != [] && CannotContinue(x[0])
    ensures ParseFloat(s + x) == ParseFloat(s)
  {
    TrimStartAppend(s, x);
    var t := TrimStart(s);
    if t != [] && (t[0] == '-' || t[0] == '+') {
      SignedStopsAt(s, t, x);
    } else {
      UnsignedStopsAt(s, t, x);
    }
  }

  lemma {:induction false} SignedStopsAt(s: string, t: string, x: string)
    requires x != [] && CannotContinue(x[0])
    requires TrimStart(s) == t && t != [] && (t[0] == '-' || t[0] == '+')
    requires TrimStart(s + x) == t + x
    ensures ParseFloat(s + x) == ParseFloat(s)
  {
    assert (t + x)[0] == t[0];
    assert (t + x)[1..] == t[1..] + x;
    ParseUnsignedStopsAt(t[1..], x);
  }

  lemma {:induction false} UnsignedStopsAt(s: string, t: string, x: string)
    requires x != [] && CannotContinue(x[0])
    requires TrimStart(s) == t && !(t != [] && (t[0] == '-' || t[0] == '+'))
    requires TrimStart(s + x) == t + x
    ensures ParseFloat(s + x) == ParseFloat(s)
  {
    if t == [] { assert t + x == x; } else { assert (t + x)[0] == t[0]; }
    ParseUnsignedStopsAt(t, x);
  }

  lemma {:induction false} ParseUnsignedStopsAt(u: string, x: string)
    requires x != [] && CannotContinue(x[0])
    ensures ParseUnsigned(u + x) == ParseUnsigned(u)
  {
    var n := LeadingDigits(u);
    LeadingDigitsStopsAt(u, x);
    var rest := u[n..];
    assert (u + x)[..n] == u[..n];
    assert (u + x)[n..] == rest + x;
    if rest != [] && rest[0] == '.' {
      FractionStopsAt(u, n, rest, x);
    } else {
      if rest == [] { assert rest + x == x; }
      else { assert (rest + x)[0] == rest[0]; }
      ExponentOfStopsAt(rest, x);
    }
  }

  lemma {:induction false} FractionStopsAt(u: string, n: nat, rest: string, x: string)
    requires x != [] && CannotContinue(x[0])
    requires n == LeadingDigits(u) && n == LeadingDigits(u + x) && rest == u[n..]
    requires (u + x)[..n] == u[..n] && (u + x)[n..] == rest + x
    requires rest != [] && rest[0] == '.'
    ensures ParseUnsigned(u + x) == ParseUnsigned(u)
  {
    var f := LeadingDigits(rest[1..]);
    assert (rest + x)[1..] == rest[1..] + x;
    LeadingDigitsStopsAt(rest[1..], x);
    assert (rest[1..] + x)[..f] == rest[1..][..f];
    assert (rest + x)[1 + f..] == rest[1 + f..] + x;
    ExponentOfStopsAt(rest[1 + f..], x);
    ParseUnsignedOfPoint(u, n, rest, f);
    ParseUnsignedOfPoint(u + x, n, rest + x, f);
  }

  /** ParseUnsigned at a decimal point after n digits, with f fraction digits after it. */
  lemma {:induction false} ParseUnsignedOfPoint(u: string, n: nat, rest: string, f: nat)
    requires n == LeadingDigits(u) && rest == u[n..] && rest != [] && rest[0] == '.'
    requires f == LeadingDigits(rest[1..])
    ensures ParseUnsigned(u) == if n == 0 && f == 0 then NaN
                                else Num(Scaled(DecimalValue(u[..n], rest[1..][..f]), rest[1 + f..]))
  {
  }

  lemma {:induction false} LeadingDigitsStopsAt(u: string, x: string)
    requires x != [] && !IsDigit(x[0])
    ensures LeadingDigits(u + x) == LeadingDigits(u)
  {
    if u == [] {
      assert u + x == x;
    } else {
      assert (u + x)[0] == u[0];
      assert (u + x)[1..] == u[1..] + x;
      LeadingDigitsStopsAt(u[1..], x);
    }
  }

  lemma {:induction false} ExponentOfStopsAt(r: string, x: string)
    requires x != [] && CannotContinue(x[0])
    ensures ExponentOf(r + x) == ExponentOf(r)
  {
    if r == [] {
      assert r + x == x;
    } else if r[0] == 'e' || r[0] == 'E' {
      assert (r + x)[0] == r[0];
      if |r| == 1 {
        assert (r + x)[1] == x[0];
        assert (r + x)[1..] == x;
        assert LeadingDigits(x) == 0;
        assert LeadingDigits(r[1..]) == 0;
      } else {
        assert (r + x)[1] == r[1];
        var signed := r[1] == '-' || r[1] == '+';
        var ds := if signed then r[2..] else r[1..];
        assert (r + x)[(if signed then 2 else 1)..] == ds + x;
        LeadingDigitsStopsAt(ds, x);
        var k := LeadingDigits(ds);
        assert (ds + x)[..k] == ds[..k];
      }
    } else {
      assert (r + x)[0] == r[0];
    }
  }

  lemma ParseFloatOfNoNumber()
    ensures ParseFloat("") == NaN
    ensures ParseFloat("-") == NaN
  {
    NoDigitIsNaN("");
    NoDigitIsNaN("-");
  }
}
