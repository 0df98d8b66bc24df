/**
 Where syntax errors point.  A word that a production does not know is reported at the token after it,
 because the parser has moved past the word when it looks at it.  For each production: on exactly which
 tokens that happens.
 */
module ErrorPlaces {
  import opened Wrappers
  import opened Lexers
  import opened Tokenizers
  import opened Decimals
  import opened Quoting
  import opened Grammars

  predicate FailsWith<T>(r: Parse<T>, problem: Problem) {
    r.Failure? && r.error.problem == problem
  }

  predicate FailsAt<T>(r: Parse<T>, problem: Problem, at: nat) {
    r.Failure? && r.error == Fail(problem, at)
  }

  /** A word stands at k, and it is none of these. */
  predicate Unknown(ts: seq<Token>, k: nat, words: set<string>) {
    k < |ts| && ts[k].kind == Ident && ts[k].text !in words
  }

  // ---------------------------------------------------------------- fields

  /** An agent's field: reported late exactly when it is none of an agent's. */
  lemma AgentFieldIff(ts: seq<Token>, pos: nat, acc: AgentIR)
    requires At(ts, pos)
    ensures FailsWith(AgentField(ts, pos, acc), UnknownField(AgentSection)) <==> Unknown(ts, pos, FieldsOf(AgentSection))
    ensures Unknown(ts, pos, FieldsOf(AgentSection)) ==> FailsAt(AgentField(ts, pos, acc), UnknownField(AgentSection), pos + 1)
  {
    if ts[pos].kind == Ident && ts[pos].text in {"capabilities", "tools"} { NameBlockKnows(ts, pos + 1); }
  }

  lemma {:induction false} NamesKnow(ts: seq<Token>, pos: nat, acc: seq<string>)
    requires At(ts, pos)
    ensures NamesFrom(ts, pos, acc).Failure? ==> NamesFrom(ts, pos, acc).error.problem == ExpectedKind(Ident)
    decreases |ts| - pos
  {
    if ts[pos].kind == Ident { NamesKnow(ts, pos + 1, acc + [ts[pos].text]); }
  }

  lemma NameBlockKnows(ts: seq<Token>, pos: nat)
    requires At(ts, pos)
    ensures NameBlock(ts, pos).Failure? ==> NameBlock(ts, pos).error.problem.ExpectedKind?
  {
    if ts[pos].kind == LBrace { NamesKnow(ts, pos + 1, []); }
  }

  lemma PolicyFieldIff(ts: seq<Token>, pos: nat, acc: PolicyIR)
    requires At(ts, pos)
    ensures FailsWith(PolicyField(ts, pos, acc), UnknownField(PolicySection)) <==> Unknown(ts, pos, FieldsOf(PolicySection))
    ensures Unknown(ts, pos, FieldsOf(PolicySection)) ==> FailsAt(PolicyField(ts, pos, acc), UnknownField(PolicySection), pos + 1)
  {
    hide ParseDecimal, ParseDuration, Truncate;
  }

  lemma ArtifactFieldIff(ts: seq<Token>, pos: nat, acc: Stmt)
    requires At(ts, pos) && acc.ArtifactStmt?
    ensures FailsWith(ArtifactField(ts, pos, acc), UnknownField(ArtifactSection)) <==> Unknown(ts, pos, FieldsOf(ArtifactSection))
    ensures Unknown(ts, pos, FieldsOf(ArtifactSection)) ==> FailsAt(ArtifactField(ts, pos, acc), UnknownField(ArtifactSection), pos + 1)
  {
    hide FineStmt;
  }

  /** The field of an approval block that stands at pos. */
  lemma ApprovalFieldIff(ts: seq<Token>, pos: nat, acc: Option<string>)
    requires At(ts, pos)
    ensures FailsAt(ApprovalFields(ts, pos, acc), UnknownField(ApprovalSection), pos + 1) <==> Unknown(ts, pos, FieldsOf(ApprovalSection))
  {
    hide Unquote;
    if AtWord(ts, pos, "message") && ts[pos + 1].kind == Text {
      ApprovalsFailLater(ts, pos + 2, Some(Unquote(ts[pos + 1].text)));
    }
  }

  lemma {:induction false} ApprovalsFailLater(ts: seq<Token>, pos: nat, acc: Option<string>)
    requires At(ts, pos)
    ensures ApprovalFields(ts, pos, acc).Failure? ==> ApprovalFields(ts, pos, acc).error.at >= pos
    decreases |ts| - pos
  {
    hide Unquote;
    if AtWord(ts, pos, "message") && ts[pos + 1].kind == Text {
      ApprovalsFailLater(ts, pos + 2, Some(Unquote(ts[pos + 1].text)));
    }
  }

  // ---------------------------------------------------------------- consensus

  /** The field stands at pos and its value, a word that is none of these, right after it. */
  predicate UnknownValue(ts: seq<Token>, pos: nat, field: string, words: set<string>)
    requires pos < |ts|
  {
    AtWord(ts, pos, field) && Unknown(ts, pos + 1, words)
  }

  const TRUTHS: set<string> := {"true", "false"}

  /** A consensus block's field, and the three that take one of a few words. */
  lemma ConsensusFieldIff(ts: seq<Token>, pos: nat, acc: Choice)
    requires At(ts, pos)
    ensures var r := ChoiceField(ts, pos, acc);
      && (FailsWith(r, UnknownField(ConsensusSection)) <==> Unknown(ts, pos, FieldsOf(ConsensusSection)))
      && (FailsWith(r, UnknownField(ConsensusSection)) ==> r.error.at == pos + 1)
      && (FailsWith(r, UnknownStrategy) <==> UnknownValue(ts, pos, "strategy", STRATEGIES))
      && (FailsWith(r, UnknownMode) <==> UnknownValue(ts, pos, "mode", MODES))
      && (FailsWith(r, BadConfidence) <==> UnknownValue(ts, pos, "confidence", TRUTHS))
      && (FailsWith(r, UnknownStrategy) || FailsWith(r, UnknownMode) || FailsWith(r, BadConfidence) ==> r.error.at == pos + 2)
  {
    hide FineChoice;
  }

  /** `consensus word` without a block. */
  lemma BareConsensusIff(ts: seq<Token>, pos: nat)
    requires At(ts, pos) && AtWord(ts, pos, "consensus") && ts[pos + 1].kind != LBrace
    ensures FailsWith(Consensus(ts, pos), UnknownStrategy) <==> Unknown(ts, pos + 1, STRATEGIES)
    ensures Unknown(ts, pos + 1, STRATEGIES) ==> FailsAt(Consensus(ts, pos), UnknownStrategy, pos + 2)
  {
    hide FineStmt;
  }

  /** Fields are pairs of tokens: the block sets a strategy exactly when one of the pairs is one. */
  lemma {:induction false} StrategyIsSet(ts: seq<Token>, pos: nat, acc: Choice)
    requires At(ts, pos) && ChoiceFields(ts, pos, acc).Success?
    ensures var c := ChoiceFields(ts, pos, acc).value;
      && ts[c.next].kind == RBrace
      && (c.value.strategy.Some? <==> acc.strategy.Some? || SetsStrategy(ts, pos, c.next))
    decreases |ts| - pos
  {
    hide FineChoice;
    if ts[pos].kind != RBrace {
      var more := ChoiceField(ts, pos, acc).value;
      FieldIsPair(ts, pos, acc);
      StrategyIsSet(ts, pos + 2, more.value);
      var end := ChoiceFields(ts, pos, acc).value.next;
      PairsSplit(ts, pos, end);
    }
  }

  /** From pos on, pair by pair, some field up to `end` is "strategy". */
  ghost predicate SetsStrategy(ts: seq<Token>, pos: nat, end: nat) {
    exists n: nat :: StrategyAt(ts, pos, end, n)
  }

  predicate StrategyAt(ts: seq<Token>, pos: nat, end: nat, n: nat) {
    pos + 2 * n < end && end <= |ts| && AtWord(ts, pos + 2 * n, "strategy")
  }

  lemma PairsSplit(ts: seq<Token>, pos: nat, end: nat)
    requires pos < |ts| && pos + 2 <= end < |ts|
    ensures SetsStrategy(ts, pos, end) <==> AtWord(ts, pos, "strategy") || SetsStrategy(ts, pos + 2, end)
  {
    if n: nat :| StrategyAt(ts, pos, end, n) {
      if n > 0 { assert StrategyAt(ts, pos + 2, end, n - 1); }
    }
    if AtWord(ts, pos, "strategy") { assert StrategyAt(ts, pos, end, 0); }
    var rest := pos + 2;
    if n: nat :| StrategyAt(ts, rest, end, n) { assert StrategyAt(ts, pos, end, n + 1); }
  }

  lemma FieldIsPair(ts: seq<Token>, pos: nat, acc: Choice)
    requires At(ts, pos) && ChoiceField(ts, pos, acc).Success?
    ensures var more := ChoiceField(ts, pos, acc).value;
      more.next == pos + 2 && (more.value.strategy.Some? <==> acc.strategy.Some? || AtWord(ts, pos, "strategy"))
  {
    hide FineChoice;
  }

  /** A block with good fields but no strategy: reported at the token after its closing brace. */
  lemma NoStrategyIff(ts: seq<Token>, pos: nat)
    requires At(ts, pos) && AtWord(ts, pos, "consensus") && ts[pos + 1].kind == LBrace
    requires ChoiceFields(ts, pos + 2, Choice(None, None, false)).Success?
    ensures var end := ChoiceFields(ts, pos + 2, Choice(None, None, false)).value.next;
      && ts[end].kind == RBrace
      && (FailsWith(Consensus(ts, pos), NoStrategy) <==> !SetsStrategy(ts, pos + 2, end))
      && (FailsWith(Consensus(ts, pos), NoStrategy) ==> Consensus(ts, pos).error.at == end + 1)
  {
    hide FineStmt, SetsStrategy, FineChoice;
    StrategyIsSet(ts, pos + 2, Choice(None, None, false));
  }

  // ---------------------------------------------------------------- the other words

  lemma ScopeIff(ts: seq<Token>, pos: nat)
    requires At(ts, pos)
    ensures FailsWith(Scope(ts, pos), UnknownScope) <==> Unknown(ts, pos, SCOPES)
    ensures Unknown(ts, pos, SCOPES) ==> FailsAt(Scope(ts, pos), UnknownScope, pos + 1)
  {
  }

  /** A parallel block of no member, or of one: reported at the token after its closing brace. */
  lemma TooFewMembersIff(ts: seq<Token>, pos: nat)
    requires At(ts, pos)
    ensures FailsAt(Parallel(ts, pos), TooFewMembers, pos + 3) <==> EmptyBlock(ts, pos)
    ensures FailsAt(Parallel(ts, pos), TooFewMembers, pos + 4) <==> LoneBlock(ts, pos)
    ensures FailsWith(Parallel(ts, pos), TooFewMembers) ==> EmptyBlock(ts, pos) || LoneBlock(ts, pos)
  {
    if AtWord(ts, pos, "parallel") && ts[pos + 1].kind == LBrace {
      NamesCounted(ts, pos + 2, []);
    }
  }

  predicate EmptyBlock(ts: seq<Token>, pos: nat) {
    pos + 2 < |ts| && AtWord(ts, pos, "parallel") && ts[pos + 1].kind == LBrace && ts[pos + 2].kind == RBrace
  }

  predicate LoneBlock(ts: seq<Token>, pos: nat) {
    && pos + 3 < |ts| && AtWord(ts, pos, "parallel") && ts[pos + 1].kind == LBrace
    && ts[pos + 2].kind == Ident && ts[pos + 3].kind == RBrace
  }

  /** One token a name, up to the brace. */
  lemma {:induction false} NamesCounted(ts: seq<Token>, pos: nat, acc: seq<string>)
    requires At(ts, pos)
    ensures NamesFrom(ts, pos, acc).Success? ==>
      var r := NamesFrom(ts, pos, acc).value;
      && |r.value| == |acc| + (r.next - pos) && ts[r.next].kind == RBrace
      && forall k | pos <= k < r.next :: ts[k].kind == Ident
    ensures NamesFrom(ts, pos, acc).Failure? ==> NamesFrom(ts, pos, acc).error.problem == ExpectedKind(Ident)
    decreases |ts| - pos
  {
    if ts[pos].kind == Ident { NamesCounted(ts, pos + 1, acc + [ts[pos].text]); }
  }

  // ---------------------------------------------------------------- files that show it

  /** `memory wrong` */
  lemma UnknownScopeIsLate(ts: seq<Token>)
    requires |ts| == 3 && Stream(ts) && AtWord(ts, 0, "memory") && AtWord(ts, 1, "wrong")
    ensures Program(ts) == Failure(Fail(UnknownScope, 2))
  {
    ScopeIff(ts, 1);
    assert Declaration(ts, 0, EMPTY) == Failure(Fail(UnknownScope, 2));
  }

  /** `policy { wrong }` */
  lemma UnknownFieldIsLate(ts: seq<Token>)
    requires |ts| == 5 && Stream(ts) && AtWord(ts, 0, "policy") && ts[1].kind == LBrace && AtWord(ts, 2, "wrong") && ts[3].kind == RBrace
    ensures Program(ts) == Failure(Fail(UnknownField(PolicySection), 3))
  {
    hide PolicyField;
    PolicyFieldIff(ts, 2, NO_POLICY);
    assert PolicyFields(ts, 2, NO_POLICY) == Failure(Fail(UnknownField(PolicySection), 3));
    assert Policy(ts, 0) == Failure(Fail(UnknownField(PolicySection), 3));
    assert Declaration(ts, 0, EMPTY) == Failure(Fail(UnknownField(PolicySection), 3));
  }

  lemma DeclarationFails(ts: seq<Token>, f: Fail)
    requires Stream(ts) && ts[0].kind != EOF && Declaration(ts, 0, EMPTY) == Failure(f)
    ensures Program(ts) == Failure(f)
  {
    hide Declaration, Blames, Fine, WellToken;
  }

  lemma WorkflowFails(ts: seq<Token>, f: Fail)
    requires Stream(ts) && AtWord(ts, 0, "workflow") && Workflow(ts, 0) == Failure(f)
    ensures Declaration(ts, 0, EMPTY) == Failure(f)
  {
    hide Workflow, Blames, Fine, WellToken, Agent, Policy, Scope, NameDeclaration;
  }

  lemma FirstStatementFails(ts: seq<Token>, f: Fail)
    requires Stream(ts) && |ts| > 3 && AtWord(ts, 0, "workflow") && ts[1].kind == Ident && ts[2].kind == LBrace && ts[3].kind != RBrace
    requires Statement(ts, 3) == Failure(f)
    ensures Program(ts) == Failure(f)
  {
    assert BodyFrom(ts, 3, []) == Failure(f) by { hide FineBody, WellToken; }
    assert Workflow(ts, 0) == Failure(f) by { hide Statement, FineBody, WellToken; }
    hide Workflow, Declaration, Statement;
    WorkflowFails(ts, f);
    DeclarationFails(ts, f);
  }

  /** `workflow w { consensus wrong }` */
  lemma UnknownStrategyIsLate(ts: seq<Token>)
    requires |ts| == 7 && Stream(ts) && AtWord(ts, 0, "workflow") && ts[1].kind == Ident && ts[2].kind == LBrace
    requires AtWord(ts, 3, "consensus") && AtWord(ts, 4, "wrong") && ts[5].kind == RBrace
    ensures Program(ts) == Failure(Fail(UnknownStrategy, 5))
  {
    BareConsensusIff(ts, 3);
    assert Statement(ts, 3) == Consensus(ts, 3);
    FirstStatementFails(ts, Fail(UnknownStrategy, 5));
  }

  lemma BlockFails(ts: seq<Token>, pos: nat, f: Fail)
    requires At(ts, pos) && AtWord(ts, pos, "consensus") && ts[pos + 1].kind == LBrace
    requires ChoiceFields(ts, pos + 2, Choice(None, None, false)) == Failure(f)
    ensures Statement(ts, pos) == Failure(f)
  {
    hide FineStmt, WellToken, FineChoice, Blames;
    assert Statement(ts, pos) == Consensus(ts, pos);
  }

  /** `workflow w { consensus { field wrong } }`, for the fields `mode` and `confidence` */
  lemma UnknownValueIsLate(ts: seq<Token>, field: string)
    requires |ts| == 10 && Stream(ts) && AtWord(ts, 0, "workflow") && ts[1].kind == Ident && ts[2].kind == LBrace
    requires AtWord(ts, 3, "consensus") && ts[4].kind == LBrace && AtWord(ts, 5, field) && AtWord(ts, 6, "wrong")
    requires field == "mode" || field == "confidence"
    ensures Program(ts) == Failure(Fail(if field == "mode" then UnknownMode else BadConfidence, 7))
  {
    hide ChoiceField, FineStmt, WellToken, FineChoice, FieldsOf;
    var f := Fail(if field == "mode" then UnknownMode else BadConfidence, 7);
    ConsensusFieldIff(ts, 5, Choice(None, None, false));
    assert ChoiceFields(ts, 5, Choice(None, None, false)) == Failure(f);
    BlockFails(ts, 3, f);
    FirstStatementFails(ts, f);
  }
}
