/**
 AirLang's lexer.  The token patterns are tried in a fixed order at each position; the first that
 matches wins.  Text is ASCII: letters, digits and word boundaries are the ASCII ones.
 */
module Lexers {
  import opened Wrappers
  import opened Numerals

  datatype Kind =
    | Comment | Whitespace | Text | Duration | Dollar | Comparator | Lt | Gt
    | Number | LBrace | RBrace | Equals | Ident | EOF

  /** The order in which the patterns are tried; EOF is not a pattern. */
  const ORDER: seq<Kind> :=
    [Comment, Whitespace, Text, Duration, Dollar, Comparator, Lt, Gt, Number, LBrace, RBrace, Equals, Ident]

  datatype Token = Token(kind: Kind, text: string, line: nat, column: nat)

  datatype LexError = UnexpectedCharacter(line: nat, column: nat) | MultilineString(line: nat, column: nat)

  // ---------------------------------------------------------------- character classes

  datatype Class = Digits | Blanks | NotNewline | NameRest

  predicate IsLetter(c: char) { 'a' <= c <= 'z' || 'A' <= c <= 'Z' }

  predicate IsWord(c: char) { IsLetter(c) || IsDigit(c) || c == '_' }

  predicate IsBlank(c: char) { c == ' ' || c == '\t' || c == '\r' || c == '\n' }

  predicate Is(c: char, class_: Class) {
    match class_
    case Digits => IsDigit(c)
    case Blanks => IsBlank(c)
    case NotNewline => c != '\n'
    case NameRest => IsWord(c) || c == '-' || c == '.'
  }

  /** The classes as ASCII codes. */
  lemma ClassesAre(c: char)
    ensures var code := c as int;
      && (IsLetter(c) <==> 65 <= code <= 90 || 97 <= code <= 122)
      && (Is(c, Digits) <==> 48 <= code <= 57)
      && (IsWord(c) <==> 48 <= code <= 57 || 65 <= code <= 90 || code == 95 || 97 <= code <= 122)
      && (Is(c, NameRest) <==> code == 45 || code == 46 || 48 <= code <= 57 || 65 <= code <= 90 || code == 95 || 97 <= code <= 122)
      && (Is(c, Blanks) <==> code == 9 || code == 10 || code == 13 || code == 32)
      && (Is(c, NotNewline) <==> code != 10)
  {
  }

  predicate All(s: string, i: nat, j: nat, class_: Class) {
    i <= j <= |s| && forall k | i <= k < j :: Is(s[k], class_)
  }

  /** The end of the longest run of the class from i on. */
  function RunEnd(s: string, i: nat, class_: Class): (j: nat)
    requires i <= |s|
    ensures All(s, i, j, class_) && (j < |s| ==> !Is(s[j], class_))
    decreases |s| - i
  {
    if i < |s| && Is(s[i], class_) then RunEnd(s, i + 1, class_) else i
  }

  /** \b after a word character. */
  predicate Boundary(s: string, i: nat) {
    i >= |s| || !IsWord(s[i])
  }

  // ---------------------------------------------------------------- the patterns, as languages

  /** \d+(\.\d+)? spans i..j, the digits before the point ending at d. */
  predicate IsDecimalAt(s: string, i: nat, d: nat, j: nat) {
    && i < d && All(s, i, d, Digits)
    && (j == d || (d < |s| && s[d] == '.' && d + 1 < j && All(s, d + 1, j, Digits)))
  }

  ghost predicate IsDecimal(s: string, i: nat, j: nat) {
    exists d :: IsDecimalAt(s, i, d, j)
  }

  /** ms|[smh] spans d..j. */
  predicate IsUnit(s: string, d: nat, j: nat) {
    && d < j <= |s|
    && (s[d..j] == "ms" || s[d..j] == "s" || s[d..j] == "m" || s[d..j] == "h")
  }

  ghost predicate IsDurationAt(s: string, i: nat, d: nat, j: nat) {
    IsDecimal(s, i, d) && IsUnit(s, d, j) && Boundary(s, j)
  }

  /** (\\.|[^"\\])* spans i..j: escaped pairs and plain characters. */
  predicate IsUnits(s: string, i: nat, j: nat)
    decreases |s| - i
  {
    && i <= j <= |s|
    && if i == j then true
       else if s[i] == '\\' then i + 2 <= j && s[i + 1] != '\n' && IsUnits(s, i + 2, j)
       else s[i] != '"' && IsUnits(s, i + 1, j)
  }

  /** The text s[i..j] is in the language of the pattern; a duration also needs a word boundary behind it. */
  ghost predicate Matches(kind: Kind, s: string, i: nat, j: nat)
    requires i <= |s|
  {
    && i < j <= |s|
    && match kind
       case Comment => s[i] == '#' && All(s, i + 1, j, NotNewline)
       case Whitespace => All(s, i, j, Blanks)
       case Text => i + 2 <= j && s[i] == '"' && s[j - 1] == '"' && IsUnits(s, i + 1, j - 1)
       case Duration => exists d :: IsDurationAt(s, i, d, j)
       case Dollar => s[i] == '$' && IsDecimal(s, i + 1, j)
       case Comparator => s[i..j] == "<=" || s[i..j] == ">=" || s[i..j] == "==" || s[i..j] == "!="
       case Lt => s[i..j] == "<"
       case Gt => s[i..j] == ">"
       case Number => IsDecimal(s, i, j)
       case LBrace => s[i..j] == "{"
       case RBrace => s[i..j] == "}"
       case Equals => s[i..j] == "="
       case Ident => (IsLetter(s[i]) || s[i] == '_') && All(s, i + 1, j, NameRest)
       case EOF => false
  }

  // ---------------------------------------------------------------- the patterns, as scanners

  function DecimalEnd(s: string, i: nat): Option<nat>
    requires i <= |s|
  {
    var d := RunEnd(s, i, Digits);
    if d == i then None
    else if d + 1 < |s| && s[d] == '.' && IsDigit(s[d + 1]) then Some(RunEnd(s, d + 1, Digits))
    else Some(d)
  }

  function UnitEnd(s: string, d: nat): Option<nat>
    requires d <= |s|
  {
    if d + 2 <= |s| && s[d..d + 2] == "ms" && Boundary(s, d + 2) then Some(d + 2)
    else if d < |s| && (s[d] == 's' || s[d] == 'm' || s[d] == 'h') && Boundary(s, d + 1) then Some(d + 1)
    else None
  }

  /** Where the closing quote of a string body starting at i is. */
  function QuoteAt(s: string, i: nat): Option<nat>
    requires i <= |s|
    decreases |s| - i
  {
    if i == |s| then None
    else if s[i] == '"' then Some(i)
    else if s[i] == '\\' then if i + 1 < |s| && s[i + 1] != '\n' then QuoteAt(s, i + 2) else None
    else QuoteAt(s, i + 1)
  }

  predicate StartsWith(s: string, i: nat, word: string) {
    i + |word| <= |s| && s[i..i + |word|] == word
  }

  function WordEnd(s: string, i: nat, word: string): Option<nat> {
    if StartsWith(s, i, word) then Some(i + |word|) else None
  }

  function PatternEnd(kind: Kind, s: string, i: nat): Option<nat>
    requires i <= |s|
  {
    match kind
    case Comment => if i < |s| && s[i] == '#' then Some(RunEnd(s, i + 1, NotNewline)) else None
    case Whitespace => if RunEnd(s, i, Blanks) > i then Some(RunEnd(s, i, Blanks)) else None
    case Text =>
      if i < |s| && s[i] == '"' then
        var q := QuoteAt(s, i + 1);
        if q.Some? then Some(q.value + 1) else None
      else None
    case Duration =>
      var d := DecimalEnd(s, i);
      if d.Some? && d.value <= |s| then UnitEnd(s, d.value) else None
    case Dollar => if i < |s| && s[i] == '$' then DecimalEnd(s, i + 1) else None
    case Comparator =>
      if StartsWith(s, i, "<=") || StartsWith(s, i, ">=") || StartsWith(s, i, "==") || StartsWith(s, i, "!=")
      then Some(i + 2) else None
    case Lt => WordEnd(s, i, "<")
    case Gt => WordEnd(s, i, ">")
    case Number => DecimalEnd(s, i)
    case LBrace => WordEnd(s, i, "{")
    case RBrace => WordEnd(s, i, "}")
    case Equals => WordEnd(s, i, "=")
    case Ident => if i < |s| && (IsLetter(s[i]) || s[i] == '_') then Some(RunEnd(s, i + 1, NameRest)) else None
    case EOF => None
  }

  /** The scanner finds the longest text of its pattern's language, if there is any. */
  ghost predicate ScansRight(kind: Kind, s: string, i: nat)
    requires i <= |s|
  {
    match PatternEnd(kind, s, i)
    case None => forall j: nat :: !Matches(kind, s, i, j)
    case Some(j) => Matches(kind, s, i, j) && forall k: nat | k > j :: !Matches(kind, s, i, k)
  }

  lemma AllAt(s: string, i: nat, j: nat, class_: Class, k: nat)
    requires All(s, i, j, class_) && i <= k < j
    ensures Is(s[k], class_)
  {
  }

  lemma RunLongest(s: string, i: nat, class_: Class, j: nat)
    requires i <= |s| && All(s, i, j, class_)
    ensures j <= RunEnd(s, i, class_)
  {
    var e := RunEnd(s, i, class_);
    if j > e { AllAt(s, i, j, class_, e); }
  }

  lemma DecimalLongest(s: string, i: nat, d: nat, j: nat)
    requires i <= |s| && IsDecimalAt(s, i, d, j)
    ensures DecimalEnd(s, i).Some? && j <= DecimalEnd(s, i).value
    ensures j == DecimalEnd(s, i).value || (j < |s| && (IsDigit(s[j]) || s[j] == '.'))
  {
    var e := RunEnd(s, i, Digits);
    RunLongest(s, i, Digits, d);
    if j > d {
      if d < e { AllAt(s, i, e, Digits, d); }
      AllAt(s, d + 1, j, Digits, d + 1);
      RunLongest(s, d + 1, Digits, j);
    }
  }

  lemma DecimalFound(s: string, i: nat)
    requires i <= |s|
    ensures match DecimalEnd(s, i)
      case None => forall j: nat :: !IsDecimal(s, i, j)
      case Some(j) => j <= |s| && IsDecimal(s, i, j)
  {
    var d := RunEnd(s, i, Digits);
    if d == i {
      forall j: nat, e | IsDecimalAt(s, i, e, j) ensures false { AllAt(s, i, e, Digits, i); }
    } else if d + 1 < |s| && s[d] == '.' && IsDigit(s[d + 1]) {
      var j := RunEnd(s, d + 1, Digits);
      RunLongest(s, d + 1, Digits, d + 2);
      assert IsDecimalAt(s, i, d, j);
    } else {
      assert IsDecimalAt(s, i, d, d);
    }
  }

  lemma DecimalRight(s: string, i: nat)
    requires i <= |s|
    ensures match DecimalEnd(s, i)
      case None => forall j: nat :: !IsDecimal(s, i, j)
      case Some(j) => i < j <= |s| && IsDecimal(s, i, j) && forall k: nat | k > j :: !IsDecimal(s, i, k)
  {
    DecimalFound(s, i);
    forall k: nat, d | IsDecimalAt(s, i, d, k) ensures DecimalEnd(s, i).Some? && k <= DecimalEnd(s, i).value {
      DecimalLongest(s, i, d, k);
    }
  }

  /** A unit can only follow the longest decimal: a shorter one is followed by a digit or a point. */
  lemma DurationRight(s: string, i: nat)
    requires i <= |s|
    ensures ScansRight(Duration, s, i)
  {
    DecimalRight(s, i);
    var e := DecimalEnd(s, i);
    forall d, j: nat | IsDurationAt(s, i, d, j) ensures e.Some? && d == e.value && UnitEnd(s, d) == Some(j) {
      var p :| IsDecimalAt(s, i, p, d);
      DecimalLongest(s, i, p, d);
      UnitIs(s, d, j);
    }
    if e.Some? && UnitEnd(s, e.value).Some? {
      UnitFound(s, e.value);
      assert IsDurationAt(s, i, e.value, UnitEnd(s, e.value).value);
    }
  }

  lemma UnitIs(s: string, d: nat, j: nat)
    requires IsUnit(s, d, j) && Boundary(s, j)
    ensures UnitEnd(s, d) == Some(j) && IsLetter(s[d])
  {
    assert s[d] == s[d..j][0];
    if s[d..j] == "ms" {
      assert j == d + 2;
    } else {
      assert j == d + 1;
      if StartsWith(s, d, "ms") { SecondOf(s, d); }
    }
  }

  lemma SecondOf(s: string, d: nat)
    requires StartsWith(s, d, "ms")
    ensures IsWord(s[d + 1])
  {
    assert s[d..d + 2][1] == s[d + 1];
  }

  lemma UnitFound(s: string, d: nat)
    requires d <= |s| && UnitEnd(s, d).Some?
    ensures IsUnit(s, d, UnitEnd(s, d).value) && Boundary(s, UnitEnd(s, d).value)
  {
    var j := UnitEnd(s, d).value;
    if j == d + 1 { assert s[d..j] == [s[d]]; }
  }

  /** The closing quote is the only place where the units can end in one. */
  lemma {:induction false} QuoteIs(s: string, i: nat, j: nat)
    requires i <= j < |s| && IsUnits(s, i, j) && s[j] == '"'
    ensures QuoteAt(s, i) == Some(j)
    decreases |s| - i
  {
    if i < j {
      if s[i] == '\\' { QuoteIs(s, i + 2, j); } else { QuoteIs(s, i + 1, j); }
    }
  }

  lemma {:induction false} QuoteFound(s: string, i: nat)
    requires i <= |s| && QuoteAt(s, i).Some?
    ensures var j := QuoteAt(s, i).value; i <= j < |s| && s[j] == '"' && IsUnits(s, i, j)
    decreases |s| - i
  {
    if s[i] == '"' {
    } else if s[i] == '\\' {
      QuoteFound(s, i + 2);
    } else {
      QuoteFound(s, i + 1);
    }
  }

  lemma TextRight(s: string, i: nat)
    requires i <= |s|
    ensures ScansRight(Text, s, i)
  {
    if i < |s| && s[i] == '"' && QuoteAt(s, i + 1).Some? { QuoteFound(s, i + 1); }
    forall j: nat | Matches(Text, s, i, j) ensures PatternEnd(Text, s, i) == Some(j) { QuoteIs(s, i + 1, j - 1); }
  }

  lemma RunsRight(s: string, i: nat)
    requires i <= |s|
    ensures ScansRight(Comment, s, i) && ScansRight(Whitespace, s, i) && ScansRight(Ident, s, i)
  {
    forall j: nat | Matches(Comment, s, i, j) ensures PatternEnd(Comment, s, i).Some? && j <= PatternEnd(Comment, s, i).value {
      RunLongest(s, i + 1, NotNewline, j);
    }
    forall j: nat | Matches(Whitespace, s, i, j) ensures j <= RunEnd(s, i, Blanks) { RunLongest(s, i, Blanks, j); }
    forall j: nat | Matches(Ident, s, i, j) ensures PatternEnd(Ident, s, i).Some? && j <= PatternEnd(Ident, s, i).value {
      RunLongest(s, i + 1, NameRest, j);
    }
  }

  /** Every pattern's scanner finds the longest match, for every text and position. */
  lemma PatternsScanRight(kind: Kind, s: string, i: nat)
    requires i <= |s|
    ensures ScansRight(kind, s, i)
  {
    match kind
    case Comment => RunsRight(s, i);
    case Whitespace => RunsRight(s, i);
    case Ident => RunsRight(s, i);
    case Text => TextRight(s, i);
    case Duration => DurationRight(s, i);
    case Dollar => if i < |s| { DecimalRight(s, i + 1); }
    case Number => DecimalRight(s, i);
    case Comparator => WordsRight(s, i);
    case Lt => WordRight(s, i, "<");
    case Gt => WordRight(s, i, ">");
    case LBrace => WordRight(s, i, "{");
    case RBrace => WordRight(s, i, "}");
    case Equals => WordRight(s, i, "=");
    case EOF =>
  }

  lemma WordRight(s: string, i: nat, word: string)
    requires i <= |s|
    ensures forall j: nat | i <= j <= |s| && s[i..j] == word :: WordEnd(s, i, word) == Some(j)
  {
    forall j: nat | i <= j <= |s| && s[i..j] == word ensures WordEnd(s, i, word) == Some(j) {
      assert |s[i..j]| == |word|;
    }
  }

  lemma WordsRight(s: string, i: nat)
    requires i <= |s|
    ensures ScansRight(Comparator, s, i)
  {
    forall j: nat | Matches(Comparator, s, i, j) ensures PatternEnd(Comparator, s, i) == Some(j) {
      assert |s[i..j]| == 2;
    }
  }

  // ---------------------------------------------------------------- the first pattern that matches

  datatype Found = Found(kind: Kind, end: nat)

  function FirstFrom(k: nat, s: string, i: nat): (r: Option<Found>)
    requires k <= |ORDER| && i <= |s|
    ensures r.Some? ==> exists m :: k <= m < |ORDER| && r.value.kind == ORDER[m]
                          && PatternEnd(ORDER[m], s, i) == Some(r.value.end)
                          && (forall h | k <= h < m :: PatternEnd(ORDER[h], s, i).None?)
    ensures r.None? ==> forall h | k <= h < |ORDER| :: PatternEnd(ORDER[h], s, i).None?
    decreases |ORDER| - k
  {
    if k == |ORDER| then None
    else match PatternEnd(ORDER[k], s, i)
      case Some(j) => Some(Found(ORDER[k], j))
      case None => FirstFrom(k + 1, s, i)
  }

  lemma FirstMoves(s: string, i: nat)
    requires i <= |s| && FirstFrom(0, s, i).Some?
    ensures i < FirstFrom(0, s, i).value.end <= |s|
  {
    PatternsScanRight(FirstFrom(0, s, i).value.kind, s, i);
  }

  /** _MASTER_RE.match(s, i): what is matched is never empty. */
  function Match(s: string, i: nat): (r: Option<Found>)
    requires i <= |s|
    ensures r.Some? ==> i < r.value.end <= |s|
  {
    var found := FirstFrom(0, s, i);
    if found.Some? then
      FirstMoves(s, i);
      found
    else None
  }
}
