/** From source text to tokens: the loop over positions, and what it loses (nothing) and locates (everything). */
module Tokenizers {
  import opened Wrappers
  import opened Lexers

  // ---------------------------------------------------------------- lines and columns

  function Newlines(text: string): nat {
    if text == "" then 0 else Newlines(text[..|text| - 1]) + if text[|text| - 1] == '\n' then 1 else 0
  }

  /** text.rfind("\n") where there is one. */
  function LastNewline(text: string): (k: nat)
    requires Newlines(text) > 0
    ensures k < |text|
  {
    if text[|text| - 1] == '\n' then |text| - 1 else LastNewline(text[..|text| - 1])
  }

  /** Where the line that position i is on begins. */
  function LineStart(s: string, i: nat): (k: nat)
    requires i <= |s|
    ensures k <= i
  {
    if i == 0 then 0 else if s[i - 1] == '\n' then i else LineStart(s, i - 1)
  }

  function LineAt(s: string, i: nat): nat
    requires i <= |s|
  {
    1 + Newlines(s[..i])
  }

  function ColumnAt(s: string, i: nat): nat
    requires i <= |s|
  {
    i - LineStart(s, i) + 1
  }

  lemma {:induction false} LineMoves(s: string, i: nat, j: nat)
    requires i <= j <= |s|
    ensures LineAt(s, j) == LineAt(s, i) + Newlines(s[i..j])
    ensures LineStart(s, j) == if Newlines(s[i..j]) > 0 then i + LastNewline(s[i..j]) + 1 else LineStart(s, i)
    decreases j
  {
    if i < j {
      LineMoves(s, i, j - 1);
      assert s[i..j][..j - i - 1] == s[i..j - 1] && s[..j][..j - 1] == s[..j - 1];
    }
  }

  // ---------------------------------------------------------------- lexing

  predicate IsSkipped(kind: Kind) { kind == Whitespace || kind == Comment }

  function TokenOf(s: string, i: nat, found: Found): Token
    requires i <= found.end <= |s|
  {
    Token(found.kind, s[i..found.end], LineAt(s, i), ColumnAt(s, i))
  }

  /** Everything from position i on, cut into tokens, those to be skipped included. */
  function Parts(s: string, i: nat): Result<seq<Token>, LexError>
    requires i <= |s|
    decreases |s| - i
  {
    if i == |s| then Success([])
    else match Match(s, i)
      case None => Failure(UnexpectedCharacter(LineAt(s, i), ColumnAt(s, i)))
      case Some(found) =>
        if found.kind == Text && Newlines(s[i..found.end]) > 0 then Failure(MultilineString(LineAt(s, i), ColumnAt(s, i)))
        else match Parts(s, found.end)
          case Failure(e) => Failure(e)
          case Success(rest) => Success([TokenOf(s, i, found)] + rest)
  }

  function Kept(parts: seq<Token>): seq<Token> {
    if parts == [] then []
    else (if IsSkipped(parts[0].kind) then [] else [parts[0]]) + Kept(parts[1..])
  }

  function End(s: string): Token {
    Token(EOF, "", LineAt(s, |s|), ColumnAt(s, |s|))
  }

  /** The tokens from position i on, EOF last. */
  function Lex(s: string, i: nat): Result<seq<Token>, LexError>
    requires i <= |s|
  {
    match Parts(s, i)
    case Failure(e) => Failure(e)
    case Success(parts) => Success(Kept(parts) + [End(s)])
  }

  /** What a turn of the loop leaves to do. */
  lemma LexTurn(s: string, i: nat)
    requires i < |s|
    ensures Lex(s, i) ==
      match Match(s, i)
      case None => Failure(UnexpectedCharacter(LineAt(s, i), ColumnAt(s, i)))
      case Some(found) =>
        if found.kind == Text && Newlines(s[i..found.end]) > 0 then Failure(MultilineString(LineAt(s, i), ColumnAt(s, i)))
        else if IsSkipped(found.kind) then Lex(s, found.end)
        else Prepend([TokenOf(s, i, found)], Lex(s, found.end))
  {
    if Match(s, i).Some? {
      var found := Match(s, i).value;
      var t := TokenOf(s, i, found);
      if Parts(s, found.end).Success? {
        var rest := Parts(s, found.end).value;
        assert ([t] + rest)[1..] == rest;
        assert [] + Kept(rest) == Kept(rest);
        assert [t] + Kept(rest) + [End(s)] == [t] + (Kept(rest) + [End(s)]);
      }
    }
  }

  function Prepend(tokens: seq<Token>, rest: Result<seq<Token>, LexError>): Result<seq<Token>, LexError> {
    match rest
    case Failure(e) => Failure(e)
    case Success(more) => Success(tokens + more)
  }

  lemma PrependMore(tokens: seq<Token>, t: Token, rest: Result<seq<Token>, LexError>)
    ensures Prepend(tokens, Prepend([t], rest)) == Prepend(tokens + [t], rest)
  {
    if rest.Success? { assert tokens + ([t] + rest.value) == tokens + [t] + rest.value; }
  }

  lemma PrependNone(rest: Result<seq<Token>, LexError>)
    ensures Prepend([], rest) == rest
  {
    if rest.Success? { assert [] + rest.value == rest.value; }
  }

  /** tokenize(source) */
  method Tokenize(source: string) returns (r: Result<seq<Token>, LexError>)
    ensures r == Lex(source, 0)
  {
    hide Lex, Match, LineAt;
    var tokens: seq<Token> := [];
    var pos, line, lineStart := 0, 1, 0;
    PrependNone(Lex(source, 0));
    assert line == LineAt(source, 0) by { LineZero(source); }
    while pos < |source|
      invariant pos <= |source| && line == LineAt(source, pos) && lineStart == LineStart(source, pos)
      invariant Lex(source, 0) == Prepend(tokens, Lex(source, pos))
      decreases |source| - pos
    {
      LexTurn(source, pos);
      var found := Match(source, pos);
      var column := pos - lineStart + 1;
      if found.None? { return Failure(UnexpectedCharacter(line, column)); }
      var kind, end := found.value.kind, found.value.end;
      var text := source[pos..end];
      if kind == Text && Newlines(text) > 0 { return Failure(MultilineString(line, column)); }
      if !IsSkipped(kind) {
        PrependMore(tokens, Token(kind, text, line, column), Lex(source, end));
        tokens := tokens + [Token(kind, text, line, column)];
      }
      LineMoves(source, pos, end);
      if Newlines(text) > 0 {
        line := line + Newlines(text);
        lineStart := pos + LastNewline(text) + 1;
      }
      pos := end;
    }
    LexEnds(source);
    r := Success(tokens + [Token(EOF, "", line, pos - lineStart + 1)]);
  }

  lemma LineZero(s: string)
    ensures LineAt(s, 0) == 1
  {
  }

  lemma LexEnds(s: string)
    ensures Lex(s, |s|) == Success([End(s)])
  {
    assert [] + [End(s)] == [End(s)];
  }

  // ---------------------------------------------------------------- lossless and located

  function Concat(parts: seq<Token>): string {
    if parts == [] then "" else parts[0].text + Concat(parts[1..])
  }

  /** Every part is the longest text of the first pattern that matches where it stands. */
  ghost predicate FirstLongest(s: string, i: nat, t: Token)
    requires i <= |s|
  {
    var j := i + |t.text|;
    && Matches(t.kind, s, i, j) && s[i..j] == t.text
    && (forall k: nat | k > j :: !Matches(t.kind, s, i, k))
    && exists m :: 0 <= m < |ORDER| && ORDER[m] == t.kind && NothingBefore(s, i, m)
  }

  /** None of the first m patterns matches at i. */
  ghost predicate NothingBefore(s: string, i: nat, m: nat)
    requires i <= |s|
  {
    forall h, k: nat | 0 <= h < m && h < |ORDER| :: !Matches(ORDER[h], s, i, k)
  }

  lemma NoPatternBefore(s: string, i: nat, m: nat)
    requires i <= |s| && m <= |ORDER| && forall h | 0 <= h < m :: PatternEnd(ORDER[h], s, i).None?
    ensures NothingBefore(s, i, m)
  {
    hide PatternEnd, Matches;
    forall h, k: nat | 0 <= h < m && h < |ORDER| ensures !Matches(ORDER[h], s, i, k) {
      PatternsScanRight(ORDER[h], s, i);
    }
  }

  lemma FoundInOrder(s: string, i: nat) returns (m: nat)
    requires i < |s| && Match(s, i).Some?
    ensures m < |ORDER| && Match(s, i).value.kind == ORDER[m] && PatternEnd(ORDER[m], s, i) == Some(Match(s, i).value.end)
    ensures NothingBefore(s, i, m)
  {
    hide PatternEnd, NothingBefore;
    var found := Match(s, i).value;
    m :| 0 <= m < |ORDER| && found.kind == ORDER[m] && PatternEnd(ORDER[m], s, i) == Some(found.end)
             && (forall h | 0 <= h < m :: PatternEnd(ORDER[h], s, i).None?);
    NoPatternBefore(s, i, m);
  }

  lemma LongestIs(s: string, i: nat, kind: Kind, j: nat)
    requires i <= |s| && PatternEnd(kind, s, i) == Some(j)
    ensures Matches(kind, s, i, j) && forall k: nat | k > j :: !Matches(kind, s, i, k)
  {
    hide PatternEnd, Matches;
    PatternsScanRight(kind, s, i);
  }

  lemma MatchIsFirstLongest(s: string, i: nat)
    requires i < |s| && Match(s, i).Some?
    ensures i <= Match(s, i).value.end <= |s| && FirstLongest(s, i, TokenOf(s, i, Match(s, i).value))
  {
    hide PatternEnd, Matches, NothingBefore, LineAt, ColumnAt, Match;
    var m := FoundInOrder(s, i);
    LongestIs(s, i, ORDER[m], Match(s, i).value.end);
  }

  /** Each part stands where the parts before it end, at the line and column of that place, as long as can be. */
  ghost predicate Located(s: string, i: nat, parts: seq<Token>)
    decreases |parts|
  {
    && i <= |s|
    && (parts != [] ==>
         && parts[0].line == LineAt(s, i) && parts[0].column == ColumnAt(s, i)
         && parts[0].text != "" && FirstLongest(s, i, parts[0])
         && Located(s, i + |parts[0].text|, parts[1..]))
  }

  /** On success nothing of the text is lost, and every token is where it says it is. */
  lemma {:induction false} LosslessAndLocated(s: string, i: nat)
    requires i <= |s| && Parts(s, i).Success?
    ensures Concat(Parts(s, i).value) == s[i..] && Located(s, i, Parts(s, i).value)
    decreases |s| - i
  {
    hide Match, FirstLongest, LineAt;
    if i < |s| {
      MatchIsFirstLongest(s, i);
      var found := Match(s, i).value;
      LosslessAndLocated(s, found.end);
      var rest := Parts(s, found.end).value;
      assert ([TokenOf(s, i, found)] + rest)[1..] == rest;
      assert s[i..] == s[i..found.end] + s[found.end..];
    } else {
      assert s[i..] == "";
    }
  }

  /** An unexpected character is where no pattern matches anything. */
  lemma NoMatchMeansNone(s: string, i: nat, kind: Kind, j: nat)
    requires i < |s| && Match(s, i).None?
    ensures !Matches(kind, s, i, j)
  {
    hide PatternEnd;
    if kind in ORDER {
      var m :| 0 <= m < |ORDER| && ORDER[m] == kind;
      assert PatternEnd(ORDER[m], s, i).None?;
      PatternsScanRight(kind, s, i);
    } else {
      KindsInOrder(kind);
    }
  }

  lemma KindsInOrder(kind: Kind)
    ensures kind != EOF ==> kind in ORDER
  {
    var o := ORDER;
    assert o[0] == Comment && o[1] == Whitespace && o[2] == Text && o[3] == Duration && o[4] == Dollar && o[5] == Comparator;
    assert o[6] == Lt && o[7] == Gt && o[8] == Number && o[9] == LBrace && o[10] == RBrace && o[11] == Equals && o[12] == Ident;
  }

  /** Places: the first is line 1, column 1; a newline starts the next line at column 1, any other character moves one column on. */
  lemma PlacesMove(s: string, i: nat)
    requires i < |s|
    ensures LineAt(s, 0) == 1 && ColumnAt(s, 0) == 1
    ensures LineAt(s, i + 1) == LineAt(s, i) + if s[i] == '\n' then 1 else 0
    ensures ColumnAt(s, i + 1) == if s[i] == '\n' then 1 else ColumnAt(s, i) + 1
  {
    assert s[..i + 1][..i] == s[..i];
  }

  function Shown(t: Token): seq<Token> {
    if t.kind == Whitespace || t.kind == Comment then [] else [t]
  }

  /** All parts but blanks and comments. */
  function Visible(parts: seq<Token>): seq<Token> {
    if parts == [] then [] else Visible(parts[..|parts| - 1]) + Shown(parts[|parts| - 1])
  }

  lemma Grouped(a: seq<Token>, b: seq<Token>, c: seq<Token>)
    ensures a + b + c == a + (b + c) && [] + a == a + []
  {
  }

  lemma {:induction false} VisibleFirst(t: Token, parts: seq<Token>)
    ensures Visible([t] + parts) == Shown(t) + Visible(parts)
    decreases |parts|
  {
    hide Shown;
    if parts == [] {
      assert [t] + [] == [t] && [t][..0] == [];
      Grouped(Shown(t), [], []);
    } else {
      var init, last := parts[..|parts| - 1], parts[|parts| - 1];
      VisibleFirst(t, init);
      assert ([t] + parts)[..|parts|] == [t] + init;
      Grouped(Shown(t), Visible(init), Shown(last));
    }
  }

  lemma {:induction false} KeptIsVisible(parts: seq<Token>)
    ensures Kept(parts) == Visible(parts)
    decreases |parts|
  {
    if parts != [] {
      KeptIsVisible(parts[1..]);
      VisibleFirst(parts[0], parts[1..]);
      assert [parts[0]] + parts[1..] == parts;
    }
  }

  /** No part is a string over several lines. */
  predicate OneLiners(parts: seq<Token>) {
    forall k | 0 <= k < |parts| && parts[k].kind == Text :: '\n' !in parts[k].text
  }

  lemma {:induction false} NewlinesIff(text: string)
    ensures Newlines(text) > 0 <==> '\n' in text
    decreases |text|
  {
    if text != "" {
      NewlinesIff(text[..|text| - 1]);
      assert text == text[..|text| - 1] + [text[|text| - 1]];
    }
  }

  lemma {:induction false} PartsOneLiners(s: string, i: nat)
    requires i <= |s| && Parts(s, i).Success?
    ensures OneLiners(Parts(s, i).value)
    decreases |s| - i
  {
    hide Match, LineAt, ColumnAt;
    if i < |s| {
      var found := Match(s, i).value;
      PartsOneLiners(s, found.end);
      NewlinesIff(s[i..found.end]);
    }
  }

  /** The first j characters are cut into these parts. */
  ghost predicate CutInto(s: string, j: nat, parts: seq<Token>) {
    j <= |s| && Located(s, 0, parts) && OneLiners(parts) && Concat(parts) == s[..j]
  }

  function FileEnd(s: string): Token {
    Token(EOF, "", LineAt(s, |s|), ColumnAt(s, |s|))
  }

  /** What tokenizing gives: the text cut into parts, blanks and comments left out, and the end of the file behind. */
  lemma TokensAre(source: string)
    requires Lex(source, 0).Success?
    ensures exists parts :: CutInto(source, |source|, parts) && Lex(source, 0).value == Visible(parts) + [FileEnd(source)]
  {
    hide LineAt, ColumnAt, Located, OneLiners;
    var parts := Parts(source, 0).value;
    LosslessAndLocated(source, 0);
    PartsOneLiners(source, 0);
    KeptIsVisible(parts);
    assert source[0..] == source && source[..|source|] == source;
    assert CutInto(source, |source|, parts);
  }

  /** What a lexical error says: up to its place the text was cut into parts, and there no pattern matches or a string has a newline. */
  ghost predicate Stuck(s: string, j: nat, e: LexError) {
    && j < |s| && e.line == LineAt(s, j) && e.column == ColumnAt(s, j)
    && match e
       case UnexpectedCharacter(_, _) => forall kind, k: nat :: !Matches(kind, s, j, k)
       case MultilineString(_, _) => exists t :: FirstLongest(s, j, t) && t.kind == Text && '\n' in t.text
  }

  lemma {:induction false} LexingStops(s: string, i: nat) returns (j: nat, parts: seq<Token>)
    requires i <= |s| && Parts(s, i).Failure?
    ensures i <= j <= |s| && Located(s, i, parts) && OneLiners(parts) && Concat(parts) == s[i..j] && Stuck(s, j, Parts(s, i).error)
    decreases |s| - i
  {
    hide FirstLongest, LineAt, ColumnAt, Match;
    if Match(s, i).None? {
      j, parts := i, [];
      forall kind, k: nat ensures !Matches(kind, s, i, k) { NoMatchMeansNone(s, i, kind, k); }
    } else {
      MatchIsFirstLongest(s, i);
      var found := Match(s, i).value;
      var t := TokenOf(s, i, found);
      NewlinesIff(t.text);
      if found.kind == Text && Newlines(t.text) > 0 {
        j, parts := i, [];
      } else {
        var rest;
        j, rest := LexingStops(s, found.end);
        parts := [t] + rest;
        assert parts[1..] == rest;
        assert s[i..j] == s[i..found.end] + s[found.end..j];
      }
    }
  }

  lemma LexErrorIs(source: string)
    requires Lex(source, 0).Failure?
    ensures exists j: nat, parts :: CutInto(source, j, parts) && Stuck(source, j, Lex(source, 0).error)
  {
    hide Located, OneLiners, Stuck;
    var j, parts := LexingStops(source, 0);
    assert source[0..j] == source[..j];
    assert CutInto(source, j, parts);
  }
}
