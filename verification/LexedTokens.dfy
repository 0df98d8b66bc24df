/** What the lexer hands to the parser: every token's text is of its kind, and EOF is last. */
module LexedTokens {
  import opened Wrappers
  import opened Numerals
  import opened Lexers
  import opened Tokenizers
  import opened Decimals
  import opened Quoting
  import opened Grammars

  lemma AllSlices(s: string, i: nat, j: nat, from: nat, to: nat, class_: Class)
    requires i <= from <= to <= j <= |s| && All(s, from, to, class_)
    ensures All(s[i..j], from - i, to - i, class_)
  {
    forall k | from - i <= k < to - i ensures Is(s[i..j][k], class_) { assert s[i..j][k] == s[i + k]; }
  }

  lemma DecimalSlices(s: string, i: nat, j: nat, from: nat, to: nat)
    requires i <= from <= to <= j <= |s| && IsDecimal(s, from, to)
    ensures IsDecimal(s[i..j], from - i, to - i)
  {
    var d: nat :| IsDecimalAt(s, from, d, to);
    assert from < d <= to;
    AllSlices(s, i, j, from, d, Class.Digits);
    if d < to {
      AllSlices(s, i, j, d + 1, to, Class.Digits);
      assert s[i..j][d - i] == s[d];
    }
    assert IsDecimalAt(s[i..j], from - i, d - i, to - i);
  }

  lemma DecimalIsLiteral(text: string)
    requires IsDecimal(text, 0, |text|)
    ensures IsLiteral(text)
  {
    DecimalRight(text, 0);
  }

  lemma LiteralSlice(s: string, i: nat, j: nat)
    requires i <= j <= |s| && IsDecimal(s, i, j)
    ensures IsLiteral(s[i..j])
  {
    DecimalSlices(s, i, j, i, j);
    DecimalIsLiteral(s[i..j]);
  }

  lemma NameSlice(s: string, i: nat, j: nat)
    requires i < j <= |s| && Matches(Ident, s, i, j)
    ensures IsName(s[i..j])
  {
    assert s[i..j][0] == s[i];
    AllSlices(s, i, j, i + 1, j, NameRest);
  }

  lemma TextSlice(s: string, i: nat, j: nat)
    requires i < j <= |s| && Matches(Text, s, i, j) && Newlines(s[i..j]) == 0
    ensures IsStringText(s[i..j])
  {
    var text := s[i..j];
    assert text[0] == s[i] && text[|text| - 1] == s[j - 1];
    forall k | i + 1 <= k < j - 1 ensures s[k] == text[k - (i + 1) + 1] { assert text[k - i] == s[k]; }
    UnitsShift(s, i + 1, text, 1, j - 1);
  }

  lemma DollarSlice(s: string, i: nat, j: nat)
    requires i < j <= |s| && Matches(Dollar, s, i, j)
    ensures WellToken(Dollar, s[i..j])
  {
    assert s[i..j][0] == s[i] && s[i..j][1..] == s[i + 1..j];
    LiteralSlice(s, i + 1, j);
  }

  lemma DecimalForward(s: string, i: nat, j: nat)
    requires IsDecimal(s, i, j)
    ensures i < j <= |s|
  {
    var d: nat :| IsDecimalAt(s, i, d, j);
  }

  lemma DurationSlice(s: string, i: nat, j: nat)
    requires i < j <= |s| && Matches(Duration, s, i, j)
    ensures IsDurationText(s[i..j])
  {
    var d: nat :| IsDurationAt(s, i, d, j);
    DecimalForward(s, i, d);
    var text, unit := s[i..j], s[d..j];
    LiteralSlice(s, i, d);
    LiteralEndsInDigit(s[i..d]);
    assert s[i..d][|s[i..d]| - 1] == s[d - 1];
    assert text[..d - i] == s[i..d] && text[d - i..] == unit;
    UnitIsRead(text, d - i, unit);
  }

  /** The unit of a duration text is what stands behind its last digit. */
  lemma UnitIsRead(text: string, d: nat, unit: string)
    requires 0 < d <= |text| && text[d..] == unit && IsDigit(text[d - 1])
    requires unit == "ms" || unit == "s" || unit == "m" || unit == "h"
    ensures UnitOf(text) == Some(unit)
  {
    assert text[|text| - 1] == unit[|unit| - 1];
    if unit == "ms" {
      assert text[|text| - 2..] == unit;
    } else {
      assert text[|text| - 2..][0] == text[d - 1];
    }
  }

  /** A matched text is of its kind. */
  lemma MatchedIsWell(kind: Kind, s: string, i: nat, j: nat)
    requires i < j <= |s| && Matches(kind, s, i, j) && (kind == Text ==> Newlines(s[i..j]) == 0)
    ensures WellToken(kind, s[i..j]) && kind != EOF
  {
    match kind
    case Ident => NameSlice(s, i, j);
    case Text => TextSlice(s, i, j);
    case Duration => DurationSlice(s, i, j);
    case Dollar => DollarSlice(s, i, j);
    case Number => LiteralSlice(s, i, j);
    case _ =>
  }

  ghost predicate AllWell(ts: seq<Token>) {
    forall i | 0 <= i < |ts| :: WellToken(ts[i].kind, ts[i].text) && ts[i].kind != EOF
  }

  lemma {:induction false} PartsWell(s: string, i: nat)
    requires i <= |s| && Parts(s, i).Success?
    ensures AllWell(Parts(s, i).value)
    decreases |s| - i
  {
    hide Match, WellToken;
    if i < |s| {
      var found := Match(s, i).value;
      MatchIsFirstLongest(s, i);
      assert i + |TokenOf(s, i, found).text| == found.end;
      MatchedIsWell(found.kind, s, i, found.end);
      PartsWell(s, found.end);
    }
  }

  lemma {:induction false} KeptWell(parts: seq<Token>)
    requires AllWell(parts)
    ensures AllWell(Kept(parts))
    decreases |parts|
  {
    hide WellToken;
    if parts != [] { KeptWell(parts[1..]); }
  }

  /** What lexing gives is what the grammar expects. */
  lemma LexedStream(s: string)
    requires Lex(s, 0).Success?
    ensures Stream(Lex(s, 0).value)
  {
    PartsWell(s, 0);
    KeptWell(Parts(s, 0).value);
    var kept := Kept(Parts(s, 0).value);
    forall i | 0 <= i < |kept| ensures (kept + [End(s)])[i].kind != EOF { assert (kept + [End(s)])[i] == kept[i]; }
    forall i | 0 <= i < |kept| + 1 ensures WellToken((kept + [End(s)])[i].kind, (kept + [End(s)])[i].text) {
      if i < |kept| { assert (kept + [End(s)])[i] == kept[i]; }
    }
  }
}
