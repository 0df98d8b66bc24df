/** Lexing rendered tokens gives the tokens back. */
module Renderings {
  import opened Wrappers
  import opened Numerals
  import opened Lexers
  import opened Tokenizers
  import opened Decimals
  import opened Quoting
  import opened Grammars
  import opened Printers

  /** What the printer writes: a well-formed token of a kind that is kept. */
  predicate Clean(l: Lexeme) {
    WellToken(l.kind, l.text) && l.kind != Comment && l.kind != Whitespace && l.kind != EOF
  }

  // ---------------------------------------------------------------- one token

  lemma {:induction false} FirstIs(k: nat, s: string, i: nat, m: nat, j: nat)
    requires k <= m < |ORDER| && i <= |s|
    requires forall h | k <= h < m :: PatternEnd(ORDER[h], s, i).None?
    requires PatternEnd(ORDER[m], s, i) == Some(j)
    ensures FirstFrom(k, s, i) == Some(Found(ORDER[m], j))
    decreases m - k
  {
    hide PatternEnd;
    if k < m { FirstIs(k + 1, s, i, m, j); }
  }

  /** The text stands at i and a space comes after it. */
  ghost predicate Stands(s: string, i: nat, text: string) {
    && text != "" && i + |text| < |s| && s[i + |text|] == ' '
    && forall k | 0 <= k < |text| :: s[i + k] == text[k]
  }

  lemma AllShifts(text: string, s: string, i: nat, from: nat, to: nat, class_: Class)
    requires i + |text| <= |s| && forall k | 0 <= k < |text| :: s[i + k] == text[k]
    requires All(text, from, to, class_)
    ensures All(s, i + from, i + to, class_)
  {
    forall k | i + from <= k < i + to ensures Is(s[k], class_) {
      assert s[i + (k - i)] == text[k - i];
    }
  }

  lemma RunStops(s: string, i: nat, j: nat, class_: Class)
    requires All(s, i, j, class_) && (j < |s| ==> !Is(s[j], class_))
    ensures RunEnd(s, i, class_) == j
  {
    RunLongest(s, i, class_, j);
  }

  lemma LiteralAt(s: string, i: nat, text: string)
    requires Stands(s, i, text) && IsLiteral(text)
    ensures DecimalEnd(s, i) == Some(i + |text|) && IsDigit(s[i])
  {
    LiteralFollowed(s, i, text, ' ');
  }

  /** A literal in front of something that is neither a digit nor a point. */
  lemma LiteralFollowed(s: string, i: nat, text: string, after: char)
    requires text != "" && i + |text| < |s| && s[i + |text|] == after && !IsDigit(after) && after != '.'
    requires forall k | 0 <= k < |text| :: s[i + k] == text[k]
    requires IsLiteral(text)
    ensures DecimalEnd(s, i) == Some(i + |text|) && IsDigit(s[i])
  {
    var d := RunEnd(text, 0, Class.Digits);
    AllShifts(text, s, i, 0, d, Class.Digits);
    AllAt(text, 0, d, Class.Digits, 0);
    assert s[i + 0] == text[0];
    if d == |text| {
      RunStops(s, i, i + d, Class.Digits);
    } else {
      assert s[i + d] == text[d] && s[i + (d + 1)] == text[d + 1];
      RunStops(s, i, i + d, Class.Digits);
      AllShifts(text, s, i, d + 1, |text|, Class.Digits);
      RunStops(s, i + d + 1, i + |text|, Class.Digits);
    }
  }

  lemma DurationAt(s: string, i: nat, text: string)
    requires Stands(s, i, text) && IsDurationText(text)
    ensures PatternEnd(Duration, s, i) == Some(i + |text|) && IsDigit(s[i])
  {
    var unit := UnitOf(text).value;
    var d := |text| - |unit|;
    var number := text[..d];
    forall k | 0 <= k < |number| ensures s[i + k] == number[k] { assert s[i + k] == text[k]; }
    assert s[i + d] == text[d];
    if unit == "ms" { assert text[d..][0] == text[d] && text[d..][1] == text[d + 1] && s[i + (d + 1)] == text[d + 1]; }
    LiteralEndsInDigit(number);
    LiteralFollowed(s, i, number, s[i + d]);
    UnitAt(s, i + d, unit);
  }

  lemma UnitAt(s: string, d: nat, unit: string)
    requires unit == "ms" || unit == "s" || unit == "m" || unit == "h"
    requires d + |unit| < |s| && s[d + |unit|] == ' ' && s[d] == unit[0] && (unit == "ms" ==> s[d + 1] == 's')
    ensures UnitEnd(s, d) == Some(d + |unit|)
  {
    if unit == "ms" {
      assert s[d..d + 2] == "ms";
    } else if StartsWith(s, d, "ms") {
      SecondOf(s, d);
    }
  }

  lemma NameAt(s: string, i: nat, text: string)
    requires Stands(s, i, text) && IsName(text)
    ensures PatternEnd(Ident, s, i) == Some(i + |text|) && (IsLetter(s[i]) || s[i] == '_')
  {
    assert s[i + 0] == text[0];
    AllShifts(text, s, i, 1, |text|, NameRest);
    RunStops(s, i + 1, i + |text|, NameRest);
  }

  lemma TextAt(s: string, i: nat, text: string)
    requires Stands(s, i, text) && IsStringText(text)
    ensures PatternEnd(Text, s, i) == Some(i + |text|) && s[i] == '"'
  {
    assert s[i + 0] == text[0] && s[i + (|text| - 1)] == text[|text| - 1];
    forall k | 1 <= k < |text| - 1 ensures text[k] == s[k - 1 + (i + 1)] { assert s[i + k] == text[k]; }
    UnitsShift(text, 1, s, i + 1, |text| - 1);
    QuoteIs(s, i + 1, i + |text| - 1);
  }

  lemma DollarAt(s: string, i: nat, text: string)
    requires Stands(s, i, text) && WellToken(Dollar, text)
    ensures PatternEnd(Dollar, s, i) == Some(i + |text|) && s[i] == '$'
  {
    assert s[i + 0] == text[0];
    var number := text[1..];
    LiteralEndsInDigit(number);
    forall k | 0 <= k < |number| ensures s[i + 1 + k] == number[k] { assert s[i + (1 + k)] == text[1 + k]; }
    LiteralFollowed(s, i + 1, number, ' ');
  }

  lemma WordAt(s: string, i: nat, text: string)
    requires Stands(s, i, text)
    ensures s[i..i + |text|] == text && s[i] == text[0]
  {
    assert s[i + 0] == text[0];
  }

  /** None of the patterns before the m-th matches at i. */
  ghost predicate FirstAt(s: string, i: nat, m: nat, j: nat)
    requires m < |ORDER| && i <= |s|
  {
    PatternEnd(ORDER[m], s, i) == Some(j) && forall h | 0 <= h < m :: PatternEnd(ORDER[h], s, i).None?
  }

  lemma OrderIs()
    ensures ORDER == [Comment, Whitespace, Text, Duration, Dollar, Comparator, Lt, Gt, Number, LBrace, RBrace, Equals, Ident]
  {
  }

  predicate Fails(kind: Kind, s: string, i: nat)
    requires i <= |s|
  {
    PatternEnd(kind, s, i).None?
  }

  lemma EarlierFail(s: string, i: nat, m: nat)
    requires i <= |s| && m < |ORDER|
    requires m > 0 ==> Fails(Comment, s, i)
    requires m > 1 ==> Fails(Whitespace, s, i)
    requires m > 2 ==> Fails(Text, s, i)
    requires m > 3 ==> Fails(Duration, s, i)
    requires m > 4 ==> Fails(Dollar, s, i)
    requires m > 5 ==> Fails(Comparator, s, i)
    requires m > 6 ==> Fails(Lt, s, i)
    requires m > 7 ==> Fails(Gt, s, i)
    requires m > 8 ==> Fails(Number, s, i)
    requires m > 9 ==> Fails(LBrace, s, i)
    requires m > 10 ==> Fails(RBrace, s, i)
    requires m > 11 ==> Fails(Equals, s, i)
    ensures forall h | 0 <= h < m :: PatternEnd(ORDER[h], s, i).None?
  {
    hide PatternEnd;
    OrderIs();
  }

  lemma StartsFirst(s: string, i: nat, word: string)
    requires i < |s| && word != "" && StartsWith(s, i, word)
    ensures s[i] == word[0]
  {
    assert s[i..i + |word|][0] == s[i];
  }

  lemma WordFails(s: string, i: nat, word: string)
    requires i < |s| && word != "" && s[i] != word[0]
    ensures !StartsWith(s, i, word)
  {
    if StartsWith(s, i, word) { StartsFirst(s, i, word); }
  }

  lemma SymbolsFail(s: string, i: nat)
    requires i < |s|
    ensures s[i] != '<' ==> Fails(Lt, s, i)
    ensures s[i] != '>' ==> Fails(Gt, s, i)
    ensures s[i] != '{' ==> Fails(LBrace, s, i)
    ensures s[i] != '}' ==> Fails(RBrace, s, i)
    ensures s[i] != '=' ==> Fails(Equals, s, i)
  {
    hide StartsWith;
    if s[i] != '<' { WordFails(s, i, "<"); }
    if s[i] != '>' { WordFails(s, i, ">"); }
    if s[i] != '{' { WordFails(s, i, "{"); }
    if s[i] != '}' { WordFails(s, i, "}"); }
    if s[i] != '=' { WordFails(s, i, "="); }
  }

  lemma ComparatorFails(s: string, i: nat)
    requires i < |s| && s[i] != '<' && s[i] != '>' && s[i] != '=' && s[i] != '!'
    ensures Fails(Comparator, s, i)
  {
    hide StartsWith;
    WordFails(s, i, "<=");
    WordFails(s, i, ">=");
    WordFails(s, i, "==");
    WordFails(s, i, "!=");
  }

  lemma MarksFail(s: string, i: nat)
    requires i < |s|
    ensures s[i] != '#' ==> Fails(Comment, s, i)
    ensures s[i] != '"' ==> Fails(Text, s, i)
    ensures s[i] != '$' ==> Fails(Dollar, s, i)
  {
  }

  lemma BlanksFail(s: string, i: nat)
    requires i < |s| && !IsBlank(s[i])
    ensures Fails(Whitespace, s, i)
  {
    RunStops(s, i, i, Blanks);
  }

  lemma NumbersFail(s: string, i: nat)
    requires i < |s| && !IsDigit(s[i])
    ensures Fails(Duration, s, i) && Fails(Number, s, i)
  {
    RunStops(s, i, i, Class.Digits);
  }

  lemma NoUnit(s: string, d: nat)
    requires d < |s| && s[d] == ' '
    ensures UnitEnd(s, d).None?
  {
    WordFails(s, d, "ms");
  }

  lemma NumberFirst(s: string, i: nat, text: string)
    requires Stands(s, i, text) && IsLiteral(text)
    ensures FirstAt(s, i, 8, i + |text|)
  {
    LiteralAt(s, i, text);
    NoUnit(s, i + |text|);
    assert Fails(Duration, s, i) && PatternEnd(Number, s, i) == Some(i + |text|);
    hide PatternEnd, IsLiteral;
    MarksFail(s, i);
    BlanksFail(s, i);
    SymbolsFail(s, i);
    ComparatorFails(s, i);
    EarlierFail(s, i, 8);
    OrderIs();
  }

  lemma DurationFirst(s: string, i: nat, text: string)
    requires Stands(s, i, text) && IsDurationText(text)
    ensures FirstAt(s, i, 3, i + |text|)
  {
    hide PatternEnd, IsDurationText;
    DurationAt(s, i, text);
    MarksFail(s, i);
    BlanksFail(s, i);
    EarlierFail(s, i, 3);
    OrderIs();
  }

  lemma NameFirst(s: string, i: nat, text: string)
    requires Stands(s, i, text) && IsName(text)
    ensures FirstAt(s, i, 12, i + |text|)
  {
    hide PatternEnd, IsName;
    NameAt(s, i, text);
    MarksFail(s, i);
    BlanksFail(s, i);
    NumbersFail(s, i);
    SymbolsFail(s, i);
    ComparatorFails(s, i);
    EarlierFail(s, i, 12);
    OrderIs();
  }

  lemma TextFirst(s: string, i: nat, text: string)
    requires Stands(s, i, text) && IsStringText(text)
    ensures FirstAt(s, i, 2, i + |text|)
  {
    hide PatternEnd, IsStringText;
    TextAt(s, i, text);
    MarksFail(s, i);
    BlanksFail(s, i);
    EarlierFail(s, i, 2);
    OrderIs();
  }

  lemma DollarFirst(s: string, i: nat, text: string)
    requires Stands(s, i, text) && WellToken(Dollar, text)
    ensures FirstAt(s, i, 4, i + |text|)
  {
    hide PatternEnd, WellToken;
    DollarAt(s, i, text);
    MarksFail(s, i);
    BlanksFail(s, i);
    NumbersFail(s, i);
    EarlierFail(s, i, 4);
    OrderIs();
  }

  predicate IsSymbol(text: string, m: nat) {
    || (m == 5 && text in {"<=", ">=", "==", "!="}) || (m == 6 && text == "<") || (m == 7 && text == ">")
    || (m == 9 && text == "{") || (m == 10 && text == "}") || (m == 11 && text == "=")
  }

  lemma SymbolFirst(s: string, i: nat, text: string, m: nat)
    requires Stands(s, i, text) && IsSymbol(text, m)
    ensures FirstAt(s, i, m, i + |text|)
  {
    SymbolAt(s, i, text, m);
    SymbolPlain(s, i, text, m);
    hide PatternEnd, IsSymbol, Stands;
    MarksFail(s, i);
    BlanksFail(s, i);
    NumbersFail(s, i);
    EarlierFail(s, i, m);
    OrderIs();
  }

  lemma SymbolAt(s: string, i: nat, text: string, m: nat)
    requires Stands(s, i, text) && IsSymbol(text, m)
    ensures PatternEnd(ORDER[m], s, i) == Some(i + |text|)
  {
    WordAt(s, i, text);
    OrderIs();
  }

  lemma SymbolPlain(s: string, i: nat, text: string, m: nat)
    requires Stands(s, i, text) && IsSymbol(text, m)
    ensures i < |s| && !IsDigit(s[i]) && !IsBlank(s[i]) && s[i] != '#' && s[i] != '"' && s[i] != '$' && m < |ORDER|
    ensures m > 5 ==> Fails(Comparator, s, i)
    ensures m > 6 ==> Fails(Lt, s, i)
    ensures m > 7 ==> Fails(Gt, s, i)
    ensures m > 9 ==> Fails(LBrace, s, i)
    ensures m > 10 ==> Fails(RBrace, s, i)
  {
    hide PatternEnd;
    WordAt(s, i, text);
    SymbolsFail(s, i);
    if m > 5 { NoComparator(s, i); }
    OrderIs();
  }

  /** One symbol and a space are no two-character comparator. */
  lemma NoComparator(s: string, i: nat)
    requires i + 1 < |s| && s[i + 1] == ' '
    ensures Fails(Comparator, s, i)
  {
    assert forall w: string | |w| == 2 && StartsWith(s, i, w) :: s[i..i + 2][1] == ' ';
  }

  function PlaceOf(l: Lexeme): nat {
    match l.kind
    case Text => 2
    case Duration => 3
    case Dollar => 4
    case Comparator => if l.text == "<" then 6 else if l.text == ">" then 7 else 5
    case Lt => 6
    case Gt => 7
    case Number => 8
    case LBrace => 9
    case RBrace => 10
    case Equals => 11
    case _ => 12
  }

  /** The kinds of comparators are kept apart. */
  predicate Proper(l: Lexeme) {
    Clean(l) && (l.kind == Comparator ==> l.text != "<" && l.text != ">")
  }

  /** A printed token is lexed as itself when a space follows. */
  lemma MatchesItself(s: string, i: nat, l: Lexeme)
    requires Proper(l) && Stands(s, i, l.text)
    ensures Match(s, i) == Some(Found(l.kind, i + |l.text|))
  {
    hide PatternEnd, Stands, IsSymbol, IsName, IsLiteral, IsStringText, IsDurationText;
    var m := PlaceOf(l);
    match l.kind {
      case Text => TextFirst(s, i, l.text);
      case Duration => DurationFirst(s, i, l.text);
      case Dollar => DollarFirst(s, i, l.text);
      case Number => NumberFirst(s, i, l.text);
      case Ident => NameFirst(s, i, l.text);
      case _ =>
        SymbolIs(l);
        SymbolFirst(s, i, l.text, m);
    }
    StandsWithin(s, i, l.text);
    OrderIs();
    FirstIs(0, s, i, m, i + |l.text|);
  }

  lemma SymbolIs(l: Lexeme)
    requires Proper(l) && PlaceOf(l) in {5, 6, 7, 9, 10, 11}
    ensures IsSymbol(l.text, PlaceOf(l)) && ORDER[PlaceOf(l)] == l.kind
  {
    OrderIs();
  }

  lemma StandsWithin(s: string, i: nat, text: string)
    requires Stands(s, i, text)
    ensures i + |text| < |s| && text != ""
  {
  }

  // ---------------------------------------------------------------- the whole text

  predicate AllProper(ls: seq<Lexeme>) {
    forall i | 0 <= i < |ls| :: Proper(ls[i])
  }

  function Strip(ts: seq<Token>): (ls: seq<Lexeme>)
    ensures |ls| == |ts|
  {
    seq(|ts|, i requires 0 <= i < |ts| => Lexeme(ts[i].kind, ts[i].text))
  }

  /** From i on the text is the rendering of these tokens. */
  predicate Shows(s: string, i: nat, ls: seq<Lexeme>) {
    i <= |s| && s[i..] == Render(ls)
  }

  predicate Reads(s: string, i: nat, j: nat, text: string) {
    i <= j <= |s| && s[i..j] == text
  }

  lemma RenderedStands(s: string, i: nat, ls: seq<Lexeme>)
    requires ls != [] && ls[0].text != "" && Shows(s, i, ls)
    ensures Stands(s, i, ls[0].text) && Shows(s, i + |ls[0].text| + 1, ls[1..])
    ensures Reads(s, i, i + |ls[0].text|, ls[0].text)
  {
    var t, rest := ls[0].text, Render(ls[1..]);
    var all := t + " " + rest;
    assert s[i..] == all && |s| - i == |all|;
    forall k | 0 <= k < |t| ensures s[i + k] == t[k] { assert s[i..][k] == all[k]; }
    assert s[i..][|t|] == all[|t|];
    assert s[i + |t| + 1..] == s[i..][|t| + 1..] == all[|t| + 1..] == rest;
    assert s[i..i + |t|] == s[i..][..|t|] == all[..|t|];
  }

  lemma ProperStart(l: Lexeme)
    requires Proper(l)
    ensures l.text != "" && !IsBlank(l.text[0])
  {
    match l.kind
    case Number => LiteralStart(l.text);
    case Duration => DurationStart(l.text);
    case _ =>
  }

  lemma LiteralStart(text: string)
    requires IsLiteral(text)
    ensures text != "" && IsDigit(text[0])
  {
    AllAt(text, 0, RunEnd(text, 0, Class.Digits), Class.Digits, 0);
  }

  lemma DurationStart(text: string)
    requires IsDurationText(text)
    ensures text != "" && IsDigit(text[0])
  {
    LiteralStart(text[..|text| - |UnitOf(text).value|]);
  }

  /** A single space is one skipped token. */
  lemma SpaceMatches(s: string, i: nat)
    requires i < |s| && s[i] == ' ' && (i + 1 < |s| ==> !IsBlank(s[i + 1]))
    ensures Match(s, i) == Some(Found(Whitespace, i + 1))
  {
    RunStops(s, i, i + 1, Blanks);
    MarksFail(s, i);
    EarlierFail(s, i, 1);
    OrderIs();
    FirstIs(0, s, i, 1, i + 1);
  }

  lemma NextIsNoBlank(s: string, i: nat, ls: seq<Lexeme>)
    requires Shows(s, i, ls) && AllProper(ls)
    ensures i < |s| ==> !IsBlank(s[i])
  {
    if i < |s| {
      assert ls != [];
      ProperStart(ls[0]);
      RenderedStands(s, i, ls);
      assert s[i + 0] == ls[0].text[0];
    }
  }

  lemma StripCons(t: Token, rest: seq<Token>, ls: seq<Lexeme>)
    requires ls != [] && Lexeme(t.kind, t.text) == ls[0] && Strip(rest) == ls[1..]
    ensures Strip([t] + rest) == ls
  {
    assert ls == [ls[0]] + ls[1..];
    assert Strip([t] + rest) == [Lexeme(t.kind, t.text)] + Strip(rest);
  }

  predicate TextOnOneLine(kind: Kind, text: string) {
    kind == Text ==> Newlines(text) == 0
  }

  lemma OneLine(l: Lexeme)
    requires Proper(l)
    ensures TextOnOneLine(l.kind, l.text)
  {
  }

  lemma TwoParts(s: string, i: nat, j: nat, kind: Kind)
    requires i < j < |s| && Match(s, i) == Some(Found(kind, j)) && Match(s, j) == Some(Found(Whitespace, j + 1))
    requires TextOnOneLine(kind, s[i..j])
    requires Parts(s, j + 1).Success? && !IsSkipped(kind)
    ensures Parts(s, i).Success?
    ensures Kept(Parts(s, i).value) == [TokenOf(s, i, Found(kind, j))] + Kept(Parts(s, j + 1).value)
  {
    hide Match;
    var t, space, rest := TokenOf(s, i, Found(kind, j)), TokenOf(s, j, Found(Whitespace, j + 1)), Parts(s, j + 1).value;
    assert Parts(s, j) == Success([space] + rest);
    assert Parts(s, i) == Success([t] + ([space] + rest));
    assert ([t] + ([space] + rest))[1..] == [space] + rest && ([space] + rest)[1..] == rest;
    assert Kept([space] + rest) == [] + Kept(rest);
  }

  lemma ProperTail(ls: seq<Lexeme>)
    requires AllProper(ls) && ls != []
    ensures Proper(ls[0]) && AllProper(ls[1..])
  {
  }

  /** The first rendered token matches as itself, and its space is skipped. */
  lemma FirstMatches(s: string, i: nat, ls: seq<Lexeme>)
    requires Shows(s, i, ls) && AllProper(ls) && ls != []
    ensures var j := i + |ls[0].text|;
      && i < j < |s| && Reads(s, i, j, ls[0].text) && Shows(s, j + 1, ls[1..])
      && Match(s, i) == Some(Found(ls[0].kind, j)) && Match(s, j) == Some(Found(Whitespace, j + 1))
      && TextOnOneLine(ls[0].kind, ls[0].text) && !IsSkipped(ls[0].kind)
  {
    hide Match, Proper, Stands, IsBlank, AllProper, TextOnOneLine, IsSkipped, Shows, Reads;
    var l, j := ls[0], i + |ls[0].text|;
    ProperTail(ls);
    ProperStart(l);
    RenderedStands(s, i, ls);
    MatchesItself(s, i, l);
    SpaceAfter(s, i, l.text);
    NextIsNoBlank(s, j + 1, ls[1..]);
    SpaceMatches(s, j);
    OneLine(l);
    KeptKind(l);
  }

  /** Rendered tokens, lexed, are the tokens. */
  lemma {:induction false} RenderedParts(s: string, i: nat, ls: seq<Lexeme>)
    requires Shows(s, i, ls) && AllProper(ls)
    ensures i <= |s| && Parts(s, i).Success? && Strip(Kept(Parts(s, i).value)) == ls
    decreases |ls|
  {
    hide Match, AllProper, IsSkipped, LineAt, ColumnAt;
    if ls == [] {
      assert i == |s|;
    } else {
      ProperTail(ls);
      var j := i + |ls[0].text|;
      FirstMatches(s, i, ls);
      assert s[i..j] == ls[0].text;
      RenderedParts(s, j + 1, ls[1..]);
      TwoParts(s, i, j, ls[0].kind);
      StripCons(TokenOf(s, i, Found(ls[0].kind, j)), Kept(Parts(s, j + 1).value), ls);
    }
  }

  lemma SpaceAfter(s: string, i: nat, text: string)
    requires Stands(s, i, text)
    ensures i + |text| < |s| && s[i + |text|] == ' '
  {
  }

  lemma KeptKind(l: Lexeme)
    requires Proper(l)
    ensures !IsSkipped(l.kind)
  {
  }

  /** Lexing a rendering succeeds, and gives the tokens rendered and the end of the text. */
  lemma LexRendered(ls: seq<Lexeme>)
    requires AllProper(ls)
    ensures Lex(Render(ls), 0).Success?
    ensures var ts := Lex(Render(ls), 0).value;
      |ts| == |ls| + 1 && Strip(ts[..|ls|]) == ls && ts[|ls|].kind == EOF
  {
    var s := Render(ls);
    assert s[0..] == s;
    RenderedParts(s, 0, ls);
    var kept := Kept(Parts(s, 0).value);
    assert (kept + [End(s)])[..|ls|] == kept;
  }
}
