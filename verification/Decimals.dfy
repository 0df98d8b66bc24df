/** Number literals as exact decimals: what the digits say, with no rounding. */
module Decimals {
  import opened Wrappers
  import opened Numerals
  import opened Lexers

  function Power10(n: nat): (p: nat)
    ensures p > 0
  {
    if n == 0 then 1 else 10 * Power10(n - 1)
  }

  /** mantissa / 10^scale */
  datatype Decimal = Decimal(mantissa: nat, scale: nat)

  /** No trailing zero after the point: every number has one such form. */
  predicate Normal(d: Decimal) {
    d.scale == 0 || d.mantissa % 10 != 0
  }

  function Normalize(m: nat, scale: nat): (d: Decimal)
    ensures Normal(d)
    decreases scale
  {
    if scale > 0 && m % 10 == 0 then Normalize(m / 10, scale - 1) else Decimal(m, scale)
  }

  /** The two name the same number. */
  predicate SameNumber(m: nat, scale: nat, d: Decimal) {
    m * Power10(d.scale) == d.mantissa * Power10(scale)
  }

  lemma {:induction false} NormalizeKeepsNumber(m: nat, scale: nat)
    ensures SameNumber(m, scale, Normalize(m, scale))
    decreases scale
  {
    if scale > 0 && m % 10 == 0 {
      var d := Normalize(m / 10, scale - 1);
      NormalizeKeepsNumber(m / 10, scale - 1);
      TenTimes(m, m / 10, Power10(d.scale), d.mantissa, Power10(scale - 1));
    }
  }

  lemma TenTimes(m: nat, n: nat, p: nat, q: nat, r: nat)
    requires m == 10 * n && n * p == q * r
    ensures m * p == q * (10 * r)
  {
    assert m * p == 10 * (n * p);
    assert q * (10 * r) == 10 * (q * r);
  }

  lemma NormalizeNormal(d: Decimal)
    requires Normal(d)
    ensures Normalize(d.mantissa, d.scale) == d
  {
  }

  // ---------------------------------------------------------------- literals

  /** The whole text is \d+(\.\d+)?. */
  predicate IsLiteral(text: string) {
    DecimalEnd(text, 0) == Some(|text|)
  }

  /** The digits of a literal without the point, and how many stand behind it. */
  function Mantissa(text: string): (m: string)
    requires IsLiteral(text)
    ensures AllDigits(m)
  {
    var d := RunEnd(text, 0, Class.Digits);
    if d == |text| then text else text[..d] + text[d + 1..]
  }

  function Scale(text: string): nat
    requires IsLiteral(text)
  {
    var d := RunEnd(text, 0, Class.Digits);
    if d == |text| then 0 else |text| - d - 1
  }

  /** float(text), exactly */
  function ParseDecimal(text: string): (d: Decimal)
    requires IsLiteral(text)
    ensures Normal(d)
  {
    Normalize(ValueOf(Mantissa(text)), Scale(text))
  }

  function Quotient(m: nat, p: nat): nat
    requires p > 0
  {
    m / p
  }

  function Remainder(m: nat, p: nat): nat
    requires p > 0
  {
    m % p
  }

  /** int(number): towards zero */
  function Truncate(d: Decimal): nat {
    Quotient(d.mantissa, Power10(d.scale))
  }

  /** n as a digit string of the given width. */
  function Padded(n: nat, width: nat): (s: string)
    ensures |s| == width && AllDigits(s)
  {
    if width == 0 then "" else Padded(n / 10, width - 1) + [DigitChar(n % 10)]
  }

  function PrintDecimal(d: Decimal): string {
    Numerals.Digits(Quotient(d.mantissa, Power10(d.scale)))
    + if d.scale == 0 then "" else "." + Padded(Remainder(d.mantissa, Power10(d.scale)), d.scale)
  }

  lemma {:induction false} ValueOfConcat(a: string, b: string)
    requires AllDigits(a) && AllDigits(b)
    ensures AllDigits(a + b) && ValueOf(a + b) == ValueOf(a) * Power10(|b|) + ValueOf(b)
    decreases |b|
  {
    if b == "" {
      assert a + b == a;
    } else {
      var init := b[..|b| - 1];
      ValueOfConcat(a, init);
      assert (a + b)[..|a + b| - 1] == a + init;
      ShiftDigit(ValueOf(a), Power10(|init|), ValueOf(init), DigitValue(b[|b| - 1]));
    }
  }

  lemma ShiftDigit(a: nat, p: nat, v: nat, c: nat)
    ensures 10 * (a * p + v) + c == a * (10 * p) + (10 * v + c)
  {
    assert a * (10 * p) == 10 * (a * p);
  }

  lemma {:induction false} ValueOfPadded(n: nat, width: nat)
    requires n < Power10(width)
    ensures ValueOf(Padded(n, width)) == n
    decreases width
  {
    if width > 0 {
      ValueOfPadded(n / 10, width - 1);
      assert Padded(n, width)[..width - 1] == Padded(n / 10, width - 1);
    }
  }

  lemma DivisionSplits(m: nat, p: nat)
    requires p > 0
    ensures m == Quotient(m, p) * p + Remainder(m, p) && Remainder(m, p) < p
    ensures p == 1 ==> Quotient(m, p) == m
  {
  }

  lemma DigitRun(whole: string, rest: string)
    requires AllDigits(whole) && (rest != "" ==> !IsDigit(rest[0]))
    ensures RunEnd(whole + rest, 0, Class.Digits) == |whole|
  {
    var s := whole + rest;
    assert forall k | 0 <= k < |whole| :: s[k] == whole[k];
    RunLongest(s, 0, Class.Digits, |whole|);
    if rest != "" { assert s[|whole|] == rest[0]; }
  }

  /** A literal as its parts. */
  lemma LiteralParts(whole: string, part: string)
    requires AllDigits(whole) && AllDigits(part) && whole != ""
    ensures IsLiteral(whole) && Mantissa(whole) == whole && Scale(whole) == 0
    ensures part != "" ==> IsLiteral(whole + "." + part) && Mantissa(whole + "." + part) == whole + part && Scale(whole + "." + part) == |part|
  {
    DigitRun(whole, "");
    assert whole + "" == whole;
    if part != "" {
      var rest := "." + part;
      var s := whole + rest;
      assert whole + "." + part == s;
      DigitRun(whole, rest);
      var d := |whole|;
      assert s[d + 1..] == part && s[..d] == whole && s[d] == '.' && s[d + 1] == part[0];
      assert All(s, d + 1, |s|, Class.Digits) by {
        assert forall k | d + 1 <= k < |s| :: s[k] == part[k - d - 1];
      }
      RunLongest(s, d + 1, Class.Digits, |s|);
    }
  }

  /** Printing a number and reading it back. */
  lemma DecimalRoundTrip(d: Decimal)
    requires Normal(d)
    ensures IsLiteral(PrintDecimal(d)) && ParseDecimal(PrintDecimal(d)) == d
  {
    hide IsLiteral, Mantissa, Scale, Quotient, Remainder, Normal;
    var p := Power10(d.scale);
    var whole := Numerals.Digits(Quotient(d.mantissa, p));
    var part := Padded(Remainder(d.mantissa, p), d.scale);
    DivisionSplits(d.mantissa, p);
    LiteralParts(whole, part);
    ValueOfDigits(Quotient(d.mantissa, p));
    NormalizeNormal(d);
    if d.scale == 0 {
      assert whole + "" == whole;
    } else {
      ValueOfPadded(Remainder(d.mantissa, p), d.scale);
      ValueOfConcat(whole, part);
      assert whole + ("." + part) == whole + "." + part;
    }
  }

  lemma IntegerRoundTrip(n: nat)
    ensures IsLiteral(Numerals.Digits(n)) && Truncate(ParseDecimal(Numerals.Digits(n))) == n
  {
    hide IsLiteral, ParseDecimal, Quotient;
    IntegerParses(n);
    DivisionSplits(n, 1);
    assert Power10(0) == 1;
  }

  lemma IntegerParses(n: nat)
    ensures IsLiteral(Numerals.Digits(n)) && ParseDecimal(Numerals.Digits(n)) == Decimal(n, 0)
  {
    hide IsLiteral, Mantissa, Scale;
    LiteralParts(Numerals.Digits(n), "");
    ValueOfDigits(n);
  }

  // ---------------------------------------------------------------- durations

  /** The unit a duration text ends in, tried in the order ms, s, m, h. */
  function UnitOf(text: string): Option<string> {
    if |text| >= 2 && text[|text| - 2..] == "ms" then Some("ms")
    else if |text| >= 1 && text[|text| - 1] == 's' then Some("s")
    else if |text| >= 1 && text[|text| - 1] == 'm' then Some("m")
    else if |text| >= 1 && text[|text| - 1] == 'h' then Some("h")
    else None
  }

  predicate IsDurationText(text: string) {
    UnitOf(text).Some? && IsLiteral(text[..|text| - |UnitOf(text).value|])
  }

  /** A number of units in seconds. */
  function Seconds(d: Decimal, unit: string): (r: Decimal)
    ensures Normal(r)
  {
    if unit == "ms" then Normalize(d.mantissa, d.scale + 3)
    else if unit == "m" then Normalize(d.mantissa * 60, d.scale)
    else if unit == "h" then Normalize(d.mantissa * 3600, d.scale)
    else Normalize(d.mantissa, d.scale)
  }

  function ParseDuration(text: string): (r: Decimal)
    requires IsDurationText(text)
    ensures Normal(r)
  {
    var unit := UnitOf(text).value;
    Seconds(ParseDecimal(text[..|text| - |unit|]), unit)
  }

  function PrintDuration(d: Decimal): string {
    PrintDecimal(d) + "s"
  }

  lemma DurationRoundTrip(d: Decimal)
    requires Normal(d)
    ensures IsDurationText(PrintDuration(d)) && ParseDuration(PrintDuration(d)) == d
  {
    hide PrintDecimal, ParseDecimal;
    var number := PrintDecimal(d);
    DecimalRoundTrip(d);
    NormalizeNormal(d);
    var text := number + "s";
    LiteralEndsInDigit(number);
    assert text[|text| - 2..][0] == number[|number| - 1];
    assert text[..|text| - 1] == number;
  }

  lemma LiteralEndsInDigit(text: string)
    requires IsLiteral(text)
    ensures text != "" && IsDigit(text[|text| - 1])
  {
    var d := RunEnd(text, 0, Class.Digits);
    if d == |text| {
      AllAt(text, 0, d, Class.Digits, d - 1);
    } else {
      AllAt(text, d + 1, |text|, Class.Digits, |text| - 1);
    }
  }

  // ---------------------------------------------------------------- what the texts name

  /** A literal names its digits, over ten to the number of digits behind the point. */
  lemma LiteralNames(whole: string, part: string)
    requires AllDigits(whole) && AllDigits(part) && whole != ""
    ensures IsLiteral(whole) && SameNumber(ValueOf(whole), 0, ParseDecimal(whole))
    ensures part != "" ==>
      IsLiteral(whole + "." + part) && SameNumber(ValueOf(whole + part), |part|, ParseDecimal(whole + "." + part))
  {
    hide IsLiteral, Mantissa, Scale, SameNumber;
    LiteralParts(whole, part);
    NormalizeKeepsNumber(ValueOf(whole), 0);
    if part != "" {
      ValueOfConcat(whole, part);
      NormalizeKeepsNumber(ValueOf(whole + part), |part|);
    }
  }

  /** int(number) is the whole number at or just below it. */
  lemma TruncateIs(d: Decimal)
    ensures Truncate(d) * Power10(d.scale) <= d.mantissa < (Truncate(d) + 1) * Power10(d.scale)
  {
    DivisionSplits(d.mantissa, Power10(d.scale));
    Distributes(Truncate(d), Power10(d.scale));
  }

  lemma Distributes(a: nat, p: nat)
    ensures (a + 1) * p == a * p + p
  {
  }

  /** A duration counts seconds: thousandths of them, seconds, minutes of sixty, or hours of sixty minutes. */
  lemma DurationNames(number: string, unit: string)
    requires IsLiteral(number) && unit in {"ms", "s", "m", "h"}
    ensures IsDurationText(number + unit)
    ensures var d, r := ParseDecimal(number), ParseDuration(number + unit);
      if unit == "ms" then (d.mantissa * Power10(r.scale) == 1000 * r.mantissa * Power10(d.scale))
      else if unit == "s" then r == d
      else if unit == "m" then (60 * d.mantissa) * Power10(r.scale) == r.mantissa * Power10(d.scale)
      else (3600 * d.mantissa) * Power10(r.scale) == r.mantissa * Power10(d.scale)
  {
    hide IsLiteral, ParseDecimal;
    var text := number + unit;
    LiteralEndsInDigit(number);
    UnitIs(number, unit);
    assert text[..|text| - |unit|] == number;
    var d := ParseDecimal(number);
    NormalizeNormal(d);
    if unit == "ms" {
      NormalizeKeepsNumber(d.mantissa, d.scale + 3);
      ThousandTimes(Normalize(d.mantissa, d.scale + 3).mantissa, d.scale);
    } else if unit == "m" {
      NormalizeKeepsNumber(d.mantissa * 60, d.scale);
    } else if unit == "h" {
      NormalizeKeepsNumber(d.mantissa * 3600, d.scale);
    }
  }

  lemma ThousandTimes(m: nat, scale: nat)
    ensures m * Power10(scale + 3) == 1000 * m * Power10(scale)
  {
    var p := Power10(scale);
    assert Power10(scale + 1) == 10 * p;
    assert Power10(scale + 2) == 10 * Power10(scale + 1);
    assert Power10(scale + 3) == 10 * Power10(scale + 2);
    assert m * (1000 * p) == 1000 * m * p;
  }

  lemma UnitIs(number: string, unit: string)
    requires number != "" && IsDigit(number[|number| - 1]) && unit in {"ms", "s", "m", "h"}
    ensures UnitOf(number + unit) == Some(unit)
  {
    var text := number + unit;
    assert text[|text| - 1] == unit[|unit| - 1];
    if unit == "ms" {
      assert text[|text| - 2..] == "ms";
    } else {
      assert text[|text| - 2..][0] == number[|number| - 1];
    }
  }
}
