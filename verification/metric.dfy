/** The Habr counter normaliser (`parse_habr_metric`) and the view-count
    heuristic of the Habr article parser.

    Python reads the cleaned token with `float()` and truncates the scaled
    value with `int()`. The model reads the same tokens as exact decimals,
    so `int(float(x) * 1000)` becomes `digits * 1000 / 10^scale` with the
    sign applied afterwards, which is truncation toward zero. */
module HabrMetric {
  import opened Wrappers
  import opened Text
  import opened Seqs

  function Pow10(n: nat): (p: nat)
    ensures p >= 1
  {
    if n == 0 then 1 else 10 * Pow10(n - 1)
  }

  /** The exact value `(negative ? -1 : 1) * digits / 10^scale`. */
  datatype Decimal = Decimal(negative: bool, digits: nat, scale: nat)

  lemma AllDigitsAppend(a: string, b: string)
    requires AllDigits(a) && AllDigits(b)
    ensures AllDigits(a + b)
  {
  }

  /** `float(s)` on the forms a Habr counter can take: optional white space,
      an optional sign, then digits with at most one decimal point and at
      least one digit. Anything else is the `ValueError` case. */
  function ParseFloat(s: string): (r: Option<Decimal>)
    ensures r.Some? ==> exists i :: 0 <= i < |s| && IsDigit(s[i])
  {
    var t := Strip(s);
    var body := if |t| > 0 && (t[0] == '-' || t[0] == '+') then t[1..] else t;
    StripChars(s);
    assert forall i :: 0 <= i < |body| ==> body[i] in s;
    ParseUnsigned(|t| > 0 && t[0] == '-', body)
  }

  /** The digits of a number after its sign. */
  function ParseUnsigned(negative: bool, body: string): (r: Option<Decimal>)
    ensures r.Some? ==> exists i :: 0 <= i < |body| && IsDigit(body[i])
  {
    if Contains(body, ".") then
      var parts := Split(body, ".");
      if |parts| == 2 && AllDigits(parts[0]) && AllDigits(parts[1]) && |parts[0]| + |parts[1]| > 0 then
        AllDigitsAppend(parts[0], parts[1]);
        var d := if |parts[0]| > 0 then parts[0][0] else parts[1][0];
        SplitChars(body, ".", if |parts[0]| > 0 then 0 else 1, d);
        Some(Decimal(negative, DigitsValue(parts[0] + parts[1]), |parts[1]|))
      else None
    else if |body| > 0 && AllDigits(body) then
      Some(Decimal(negative, DigitsValue(body), 0))
    else None
  }

  /** `int(float(x) * factor)`, or 0 when `float` raised `ValueError`. */
  function Scaled(d: Option<Decimal>, factor: nat): int {
    match d
    case None => 0
    case Some(Decimal(negative, digits, scale)) =>
      var magnitude := digits * factor / Pow10(scale);
      if negative then -magnitude else magnitude
  }

  /** `parse_habr_metric`: an empty token is 0; otherwise `+` signs are
      dropped, a comma becomes the decimal point, and the cleaned token is
      scaled by its unit. */
  function ParseMetric(raw: string): int {
    if raw == "" then 0
    else ScaleToken(Cleaned(raw))
  }

  /** The stripped token with every `+` dropped and every `,` read as a
      decimal point. */
  function Cleaned(raw: string): string {
    ReplaceAll(ReplaceAll(Strip(raw), "+", ""), ",", ".")
  }

  /** The unit rule of `parse_habr_metric`: a `k` anywhere scales by a
      thousand (checked first), an `m` by a million, and a token that does
      not parse is 0. */
  function ScaleToken(v: string): int {
    var low := Lower(v);
    if Contains(low, "k") then Scaled(ParseFloat(ReplaceAll(low, "k", "")), 1000)
    else if Contains(low, "m") then Scaled(ParseFloat(ReplaceAll(low, "m", "")), 1000000)
    else Scaled(ParseFloat(v), 1)
  }

  /** The multiplier a unit suffix stands for. */
  function UnitFactor(unit: string): nat {
    if unit == "k" || unit == "K" then 1000
    else if unit == "m" || unit == "M" then 1000000
    else 1
  }

  // ---------------------------------------------------------------------
  // Well-formed tokens
  // ---------------------------------------------------------------------

  lemma DigitsLack(s: string, c: char)
    requires AllDigits(s) && !IsDigit(c)
    ensures c !in s
  {
  }

  /** The digits of `int [. frac]`. */
  lemma ParseUnsignedNumeral(negative: bool, intPart: string, point: string, fracPart: string)
    requires point == "" || point == "."
    requires AllDigits(intPart) && AllDigits(fracPart)
    requires point == "" ==> fracPart == "" && |intPart| > 0
    requires point == "." ==> |intPart| + |fracPart| > 0
    ensures AllDigits(intPart + fracPart)
    ensures ParseUnsigned(negative, intPart + point + fracPart)
         == Some(Decimal(negative, DigitsValue(intPart + fracPart), |fracPart|))
  {
    AllDigitsAppend(intPart, fracPart);
    var body := intPart + point + fracPart;
    DigitsLack(intPart, '.');
    DigitsLack(fracPart, '.');
    if point == "." {
      SplitSingleChar(intPart, '.', fracPart);
      assert body == intPart + ['.'] + fracPart;
      assert OccursAt(body, ".", |intPart|);
    } else {
      assert body == intPart && intPart + fracPart == intPart;
      NotContainsWithoutFirstChar(body, ".");
    }
  }

  /** `float` reads an unpadded number as its sign and its digits. */
  lemma ParseFloatSigned(sign: string, body: string)
    requires sign == "" || sign == "-"
    requires |body| > 0 && body[0] != '-' && body[0] != '+'
    requires !IsSpace(body[0]) && !IsSpace(body[|body| - 1])
    ensures ParseFloat(sign + body) == ParseUnsigned(sign == "-", body)
  {
    var s := sign + body;
    assert !IsSpace(s[0]) && !IsSpace(s[|s| - 1]);
    StripTrimmed(s);
    if sign == "-" {
      assert s[1..] == body;
    } else {
      assert s == body;
    }
  }

  /** `float` on `[sign] int [. frac]`. */
  lemma ParseFloatNumeral(sign: string, intPart: string, point: string, fracPart: string)
    requires sign == "" || sign == "-"
    requires point == "" || point == "."
    requires AllDigits(intPart) && AllDigits(fracPart)
    requires point == "" ==> fracPart == "" && |intPart| > 0
    requires point == "." ==> |intPart| + |fracPart| > 0
    ensures AllDigits(intPart + fracPart)
    ensures ParseFloat(sign + intPart + point + fracPart)
         == Some(Decimal(sign == "-", DigitsValue(intPart + fracPart), |fracPart|))
  {
    var body := intPart + point + fracPart;
    assert IsDigit(body[0]) || body[0] == '.';
    assert IsDigit(body[|body| - 1]) || body[|body| - 1] == '.';
    ParseFloatSigned(sign, body);
    Regroup(intPart, point, fracPart);
    Regroup(sign, intPart, point);
    Regroup(sign, intPart + point, fracPart);
    ParseUnsignedNumeral(sign == "-", intPart, point, fracPart);
  }

  /** The pieces of a well-formed counter token: an optional sign, digits
      with an optional `.` or `,` decimal point, and an optional `k`/`K` or
      `m`/`M` suffix. */
  predicate Numeral(sign: string, intPart: string, point: string, fracPart: string, unit: string) {
    && (sign == "" || sign == "+" || sign == "-")
    && (point == "" || point == "." || point == ",")
    && AllDigits(intPart) && AllDigits(fracPart)
    && (point == "" ==> fracPart == "" && |intPart| > 0)
    && (point != "" ==> |intPart| + |fracPart| > 0)
    && (unit == "" || unit == "k" || unit == "K" || unit == "m" || unit == "M")
  }

  /** The sign a token keeps once `+` is dropped. */
  function KeptSign(sign: string): string {
    if sign == "-" then "-" else ""
  }

  /** The decimal point a token has once `,` became `.`. */
  function KeptPoint(point: string): string {
    if point == "" then "" else "."
  }

  // The lemmas below establish facts about the shape of a token; they
  // mention no string function, so each is cheap on its own.

  lemma TokenEdges(sign: string, intPart: string, point: string, fracPart: string, unit: string)
    requires Numeral(sign, intPart, point, fracPart, unit)
    ensures var s := sign + intPart + point + fracPart + unit;
            |s| > 0 && !IsSpace(s[0]) && !IsSpace(s[|s| - 1])
  {
  }

  lemma AfterSign(sign: string, intPart: string, point: string, fracPart: string, unit: string)
    ensures sign + intPart + point + fracPart + unit == sign + (intPart + point + fracPart + unit)
  {
    Regroup(sign, intPart, point);
    Regroup(sign, intPart + point, fracPart);
    Regroup(sign, intPart + point + fracPart, unit);
  }

  lemma PlusFree(sign: string, intPart: string, point: string, fracPart: string, unit: string)
    requires Numeral(sign, intPart, point, fracPart, unit)
    ensures '+' !in intPart + point + fracPart + unit
    ensures '+' !in KeptSign(sign) + (intPart + point + fracPart + unit)
  {
    DigitsLack(intPart, '+');
    DigitsLack(fracPart, '+');
  }

  lemma CommaFree(sign: string, intPart: string, point: string, fracPart: string, unit: string)
    requires Numeral(sign, intPart, point, fracPart, unit)
    ensures ',' !in KeptSign(sign) + intPart && ',' !in fracPart + unit
    ensures point != "," ==> ',' !in KeptSign(sign) + (intPart + point + fracPart + unit)
  {
    DigitsLack(intPart, ',');
    DigitsLack(fracPart, ',');
  }

  lemma AroundComma(ks: string, intPart: string, fracPart: string, unit: string)
    ensures ks + (intPart + "," + fracPart + unit) == (ks + intPart) + [','] + (fracPart + unit)
    ensures (ks + intPart) + "." + (fracPart + unit) == ks + intPart + "." + fracPart + unit
  {
    Regroup(intPart, ",", fracPart);
    Regroup(intPart, "," + fracPart, unit);
    Regroup(",", fracPart, unit);
    Regroup(ks, intPart, "," + (fracPart + unit));
    Regroup(ks + intPart, ",", fracPart + unit);
    Regroup(ks + intPart + ".", fracPart, unit);
  }

  /** Dropping `+` and turning `,` into `.` maps a written token to its
      canonical form. */
  lemma NormaliseNumeral(sign: string, intPart: string, point: string, fracPart: string, unit: string)
    requires Numeral(sign, intPart, point, fracPart, unit)
    ensures var s := sign + intPart + point + fracPart + unit;
            ReplaceAll(ReplaceAll(Strip(s), "+", ""), ",", ".")
            == KeptSign(sign) + intPart + KeptPoint(point) + fracPart + unit
  {
    var s := sign + intPart + point + fracPart + unit;
    var rest := intPart + point + fracPart + unit;
    TokenEdges(sign, intPart, point, fracPart, unit);
    StripTrimmed(s);
    AfterSign(sign, intPart, point, fracPart, unit);
    PlusFree(sign, intPart, point, fracPart, unit);
    if sign == "+" {
      assert s == [] + ['+'] + rest;
      ReplaceSingleChar([], '+', rest, "");
      assert [] + "" + rest == rest;
    } else {
      assert s == KeptSign(sign) + rest;
      NotContainsWithoutFirstChar(s, "+");
      ReplaceAllAbsent(s, "+", "");
    }
    var v := KeptSign(sign) + rest;
    assert ReplaceAll(Strip(s), "+", "") == v;
    CommaFree(sign, intPart, point, fracPart, unit);
    if point == "," {
      AroundComma(KeptSign(sign), intPart, fracPart, unit);
      ReplaceSingleChar(KeptSign(sign) + intPart, ',', fracPart + unit, ".");
    } else {
      AfterSign(KeptSign(sign), intPart, point, fracPart, unit);
      assert KeptPoint(point) == point;
      NotContainsWithoutFirstChar(v, ",");
      ReplaceAllAbsent(v, ",", ".");
    }
  }

  /** The canonical token without its unit, and the facts about its
      characters that the unit rules need. */
  lemma CanonicalChars(sign: string, intPart: string, point: string, fracPart: string)
    requires AllDigits(intPart) && AllDigits(fracPart)
    ensures Bare(KeptSign(sign) + intPart + KeptPoint(point) + fracPart)
  {
  }

  lemma LowerUnit(unit: string)
    requires unit == "" || unit == "k" || unit == "K" || unit == "m" || unit == "M"
    ensures Lower(unit) == (if unit == "" then "" else if unit == "k" || unit == "K" then "k" else "m")
  {
  }

  /** A number followed by a one-letter unit. */
  lemma WithUnit(num: string, c: char)
    ensures num + [c] == num + [c] + []
    ensures OccursAt(num + [c], [c], |num|)
  {
    OccursBetween(num, [c], []);
  }

  /** A canonical number: lower case, and free of the unit letters. */
  predicate Bare(num: string) {
    (forall i :: 0 <= i < |num| ==> !IsUpper(num[i])) && 'k' !in num && 'm' !in num
  }

  lemma ScaleThousands(num: string, unit: string)
    requires Bare(num) && (unit == "k" || unit == "K")
    ensures ScaleToken(num + unit) == Scaled(ParseFloat(num), 1000)
  {
    LowerUnchanged(num);
    LowerAppend(num, unit);
    LowerUnit(unit);
    var low := Lower(num + unit);
    assert low == num + ['k'];
    WithUnit(num, 'k');
    assert Contains(low, "k");
    ReplaceSingleChar(num, 'k', [], "");
    assert num + "" + [] == num;
  }

  lemma ScaleMillions(num: string, unit: string)
    requires Bare(num) && (unit == "m" || unit == "M")
    ensures ScaleToken(num + unit) == Scaled(ParseFloat(num), 1000000)
  {
    LowerUnchanged(num);
    LowerAppend(num, unit);
    LowerUnit(unit);
    var low := Lower(num + unit);
    assert low == num + ['m'];
    WithUnit(num, 'm');
    assert 'k' !in low;
    NotContainsWithoutFirstChar(low, "k");
    assert Contains(low, "m");
    ReplaceSingleChar(num, 'm', [], "");
    assert num + "" + [] == num;
  }

  lemma ScaleUnits(num: string)
    requires Bare(num)
    ensures ScaleToken(num) == Scaled(ParseFloat(num), 1)
  {
    LowerUnchanged(num);
    NotContainsWithoutFirstChar(num, "k");
    NotContainsWithoutFirstChar(num, "m");
  }

  /** The cleaned token is scaled by the factor its unit names. */
  lemma ScaleByUnit(num: string, unit: string)
    requires Bare(num)
    requires unit == "" || unit == "k" || unit == "K" || unit == "m" || unit == "M"
    ensures ScaleToken(num + unit) == Scaled(ParseFloat(num), UnitFactor(unit))
  {
    if unit == "k" || unit == "K" {
      ScaleThousands(num, unit);
    } else if unit == "m" || unit == "M" {
      ScaleMillions(num, unit);
    } else {
      assert num + unit == num;
      ScaleUnits(num);
    }
  }

  /** The value of every well-formed counter token. The scaled value is
      truncated toward zero. */
  lemma ParseMetricNumeral(sign: string, intPart: string, point: string, fracPart: string, unit: string)
    requires Numeral(sign, intPart, point, fracPart, unit)
    ensures AllDigits(intPart + fracPart)
    ensures var magnitude := DigitsValue(intPart + fracPart) * UnitFactor(unit) / Pow10(|fracPart|);
            ParseMetric(sign + intPart + point + fracPart + unit)
            == if sign == "-" then -magnitude else magnitude
  {
    AllDigitsAppend(intPart, fracPart);
    TokenEdges(sign, intPart, point, fracPart, unit);
    NormaliseNumeral(sign, intPart, point, fracPart, unit);
    var num := KeptSign(sign) + intPart + KeptPoint(point) + fracPart;
    CanonicalChars(sign, intPart, point, fracPart);
    ScaleByUnit(num, unit);
    ParseFloatNumeral(KeptSign(sign), intPart, KeptPoint(point), fracPart);
  }

  /** Whole digits without a unit keep their value. */
  lemma WholeMagnitude(digits: string)
    requires AllDigits(digits)
    ensures AllDigits(digits + "")
    ensures DigitsValue(digits + "") * UnitFactor("") / Pow10(|""|) == DigitsValue(digits)
  {
    assert digits + "" == digits;
  }

  /** A leading `+` is ignored: `+` and digits read as the digits. */
  lemma PlusDigits(digits: string)
    requires |digits| > 0 && AllDigits(digits)
    ensures ParseMetric("+" + digits) == DigitsValue(digits)
  {
    Unpadded(digits);
    ParseMetricNumeral("+", digits, "", "", "");
    WholeMagnitude(digits);
    assert "+" != "-" by { assert "+"[0] != "-"[0]; }
  }

  /** An unsigned token with a decimal point reads as its digits, scaled by
      the unit and divided by the fraction's power of ten. */
  lemma UnsignedNumeral(intPart: string, point: string, fracPart: string, unit: string)
    requires Numeral("", intPart, point, fracPart, unit)
    ensures AllDigits(intPart + fracPart)
    ensures ParseMetric(intPart + point + fracPart + unit)
         == DigitsValue(intPart + fracPart) * UnitFactor(unit) / Pow10(|fracPart|)
  {
    ParseMetricNumeral("", intPart, point, fracPart, unit);
    assert "" + intPart == intPart;
  }

  /** The same without a unit. */
  lemma UnitlessNumeral(intPart: string, point: string, fracPart: string)
    requires Numeral("", intPart, point, fracPart, "")
    ensures AllDigits(intPart + fracPart)
    ensures ParseMetric(intPart + point + fracPart) == DigitsValue(intPart + fracPart) / Pow10(|fracPart|)
  {
    var token := intPart + point + fracPart;
    Unpadded(token);
    UnsignedNumeral(intPart, point, fracPart, "");
    assert UnitFactor("") == 1;
    assert DigitsValue(intPart + fracPart) * UnitFactor("") == DigitsValue(intPart + fracPart);
  }

  // Tokens as they appear on article pages.

  lemma ThousandsExample()
    ensures ParseMetric("1" + "." + "5" + "k") == 1500
  {
    UnsignedNumeral("1", ".", "5", "k");
    assert DigitsValue("1" + "5") == 15 by { assert "1" + "5" == "15"; }
    assert Pow10(|"5"|) == 10;
    assert 15 * UnitFactor("k") / 10 == 1500;
  }

  lemma PlusExample()
    ensures ParseMetric("+" + "10") == 10
  {
    PlusDigits("10");
    assert "10"[..1] == "1";
  }

  lemma MillionsExample()
    ensures ParseMetric("2" + "," + "5" + "M") == 2500000
  {
    UnsignedNumeral("2", ",", "5", "M");
    assert DigitsValue("2" + "5") == 25 by { assert "2" + "5" == "25"; }
    assert Pow10(|"5"|) == 10;
    assert 25 * UnitFactor("M") / 10 == 2500000;
  }

  /** A comma is a decimal point, never a thousands separator: `1,234`
      is one and a fraction, cut to 1. */
  lemma CommaExample()
    ensures ParseMetric("1" + "," + "234") == 1
  {
    UnitlessNumeral("1", ",", "234");
    assert DigitsValue("1" + "234") == 1234 by {
      assert "1" + "234" == "1234";
      assert "1234"[..3] == "123" && "123"[..2] == "12" && "12"[..1] == "1";
    }
    assert Pow10(|"234"|) == 1000;
  }

  lemma NegativeExample()
    ensures ParseMetric("-" + "1" + "." + "5" + "k") == -1500
  {
    ParseMetricNumeral("-", "1", ".", "5", "k");
    assert DigitsValue("1" + "5") == 15 by { assert "1" + "5" == "15"; }
    assert Pow10(|"5"|) == 10;
    assert 15 * UnitFactor("k") / 10 == 1500;
  }

  lemma Unpadded(s: string)
    ensures "" + s + "" + "" + "" == s
    ensures "" + s + "" + "" + "k" == s + "k"
    ensures s + "" == s
    ensures "+" + s + "" + "" + "" == "+" + s
  {
  }

  /** `str(n)` reads back as `n`. */
  lemma ParseMetricOfNat(n: nat)
    ensures ParseMetric(NatToString(n)) == n
  {
    NatToStringDigits(n);
    var s := NatToString(n);
    Unpadded(s);
    ParseMetricNumeral("", s, "", "", "");
    WholeMagnitude(s);
  }

  /** `str(n) + "k"` reads back as a thousand times `n`. */
  lemma ParseMetricOfThousands(n: nat)
    ensures ParseMetric(NatToString(n) + "k") == 1000 * n
  {
    NatToStringDigits(n);
    var s := NatToString(n);
    Unpadded(s);
    ParseMetricNumeral("", s, "", "", "k");
    assert Pow10(0) == 1;
    assert DigitsValue(s + "") * UnitFactor("k") / Pow10(0) == 1000 * n;
  }

  // ---------------------------------------------------------------------
  // Malformed tokens
  // ---------------------------------------------------------------------

  lemma LowerKeepsNonDigits(s: string)
    requires forall i :: 0 <= i < |s| ==> !IsDigit(s[i])
    ensures forall i :: 0 <= i < |Lower(s)| ==> !IsDigit(Lower(s)[i])
  {
  }

  lemma ReplaceKeepsNonDigits(s: string, pat: string, rep: string)
    requires |pat| > 0
    requires forall i :: 0 <= i < |s| ==> !IsDigit(s[i])
    requires forall i :: 0 <= i < |rep| ==> !IsDigit(rep[i])
    ensures forall i :: 0 <= i < |ReplaceAll(s, pat, rep)| ==> !IsDigit(ReplaceAll(s, pat, rep)[i])
  {
    var r := ReplaceAll(s, pat, rep);
    forall i | 0 <= i < |r| ensures !IsDigit(r[i]) {
      ReplaceAllChars(s, pat, rep, r[i]);
    }
  }

  /** A token without a single decimal digit can never parse, so it counts
      as 0 whatever else it holds. */
  lemma ParseMetricWithoutDigits(raw: string)
    requires forall i :: 0 <= i < |raw| ==> !IsDigit(raw[i])
    ensures ParseMetric(raw) == 0
  {
    if raw != "" {
      var t := Strip(raw);
      StripChars(raw);
      assert forall i :: 0 <= i < |t| ==> t[i] in raw;
      ReplaceKeepsNonDigits(t, "+", "");
      var u := ReplaceAll(t, "+", "");
      ReplaceKeepsNonDigits(u, ",", ".");
      var v := ReplaceAll(u, ",", ".");
      LowerKeepsNonDigits(v);
      var low := Lower(v);
      ReplaceKeepsNonDigits(low, "k", "");
      ReplaceKeepsNonDigits(low, "m", "");
    }
  }

  // ---------------------------------------------------------------------
  // Tokens that count
  // ---------------------------------------------------------------------

  /** What `float` reads after the sign is digits with at most one `.`,
      and reads as those digits. */
  lemma ParseUnsignedShape(negative: bool, body: string)
    requires ParseUnsigned(negative, body).Some?
    ensures exists intPart, point, fracPart ::
              && Numeral("", intPart, point, fracPart, "") && point != ","
              && body == intPart + point + fracPart
              && ParseUnsigned(negative, body) == Some(Decimal(negative, DigitsValue(intPart + fracPart), |fracPart|))
  {
    if Contains(body, ".") {
      var parts := Split(body, ".");
      JoinSplit(body, ".");
      assert Join(parts[1..], ".") == parts[1];
      AllDigitsAppend(parts[0], parts[1]);
      assert Numeral("", parts[0], ".", parts[1], "");
    } else {
      assert body + "" == body && body + "" + "" == body;
      assert Numeral("", body, "", "", "");
    }
  }

  /** The converse of `ParseFloatNumeral`: whatever `float` reads is, once
      stripped, a sign followed by digits with at most one `.`, and reads
      as those digits. */
  lemma ParseFloatShape(s: string)
    requires ParseFloat(s).Some?
    ensures exists sign, intPart, point, fracPart ::
              && Numeral(sign, intPart, point, fracPart, "") && point != ","
              && Strip(s) == sign + intPart + point + fracPart
              && ParseFloat(s) == Some(Decimal(sign == "-", DigitsValue(intPart + fracPart), |fracPart|))
  {
    var t := Strip(s);
    var signed := |t| > 0 && (t[0] == '-' || t[0] == '+');
    var sign := if signed then [t[0]] else "";
    var body := if signed then t[1..] else t;
    assert t == sign + body;
    assert (|t| > 0 && t[0] == '-') == (sign == "-");
    ParseUnsignedShape(sign == "-", body);
    var intPart, point, fracPart :| && Numeral("", intPart, point, fracPart, "") && point != ","
                                    && body == intPart + point + fracPart
                                    && ParseUnsigned(sign == "-", body)
                                       == Some(Decimal(sign == "-", DigitsValue(intPart + fracPart), |fracPart|));
    Regroup(sign, intPart, point);
    Regroup(sign, intPart + point, fracPart);
    assert Numeral(sign, intPart, point, fracPart, "");
  }

  /** The cleaned token with its unit taken off, as `ScaleToken` reads it:
      after lower-casing, every `k` when it holds one, otherwise every `m`. */
  function Unitless(v: string): string {
    var low := Lower(v);
    if Contains(low, "k") then ReplaceAll(low, "k", "")
    else if Contains(low, "m") then ReplaceAll(low, "m", "")
    else v
  }

  /** The converse of `ParseMetricNumeral`: a token that counts as
      non-zero is non-empty, and once cleaned and stripped of its unit
      letters it is a sign followed by digits with at most one `.`. */
  lemma ParseMetricNonZero(raw: string)
    requires ParseMetric(raw) != 0
    ensures raw != ""
    ensures ParseFloat(Unitless(Cleaned(raw))).Some?
    ensures exists sign, intPart, point, fracPart ::
              && Numeral(sign, intPart, point, fracPart, "") && point != ","
              && Strip(Unitless(Cleaned(raw))) == sign + intPart + point + fracPart
  {
    ParseFloatShape(Unitless(Cleaned(raw)));
  }

  // ---------------------------------------------------------------------
  // Article views
  // ---------------------------------------------------------------------

  /** The parsed value of every counter, in page order. */
  function CounterValues(counters: seq<string>): (values: seq<int>)
    ensures |values| == |counters|
  {
    seq(|counters|, i requires 0 <= i < |counters| => ParseMetric(counters[i]))
  }

  /** The view count of an article page: starting from 0, the largest value
      among the page's `tm-icon-counter__value` counters. */
  function ArticleViews(counters: seq<string>): int {
    RunningMax(CounterValues(counters))
  }

  /** The view count is at least 0, at least every counter, and either 0 or
      the value of one of the counters. */
  lemma ArticleViewsBounds(counters: seq<string>)
    ensures ArticleViews(counters) >= 0
    ensures forall i :: 0 <= i < |counters| ==> ParseMetric(counters[i]) <= ArticleViews(counters)
    ensures ArticleViews(counters) == 0
         || exists i :: 0 <= i < |counters| && ArticleViews(counters) == ParseMetric(counters[i])
  {
    var values := CounterValues(counters);
    assert forall i :: 0 <= i < |counters| ==> values[i] == ParseMetric(counters[i]);
  }
}
