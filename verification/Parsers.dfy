/**
 The parser object: the token list and a position that every production moves.  Each method is proved
 against its production in Grammars.dfy; where it fails, the error is the production's.
 */
module Parsers {
  import opened Wrappers
  import opened Lexers
  import opened Tokenizers
  import opened Decimals
  import opened Quoting
  import opened Grammars
  import opened LexedTokens
  import opened Parsing
  import G = Grammars

  /** The method returned what the production says, and left off where it does. */
  ghost predicate Does<T>(r: Result<T, Fail>, spec: Parse<T>, pos: nat) {
    match spec
    case Success(parsed) => r == Success(parsed.value) && pos == parsed.next
    case Failure(f) => r == Failure(f)
  }

  class Parser {
    const tokens: seq<Token>
    var pos: nat

    ghost predicate Valid()
      reads this
    {
      At(tokens, pos)
    }

    constructor (tokens: seq<Token>)
      requires Stream(tokens)
      ensures Valid() && this.tokens == tokens && pos == 0
    {
      this.tokens, pos := tokens, 0;
    }

    method Expect(kind: Kind) returns (r: Result<string, Fail>)
      requires Valid() && kind != EOF
      modifies this
      ensures Valid() && Does(r, G.Expect(tokens, old(pos), kind), pos) && pos >= old(pos)
    {
      if tokens[pos].kind != kind { return Failure(Fail(ExpectedKind(kind), pos)); }
      pos := pos + 1;
      return Success(tokens[pos - 1].text);
    }

    method ExpectWord(word: string) returns (r: Result<string, Fail>)
      requires Valid()
      modifies this
      ensures Valid() && Does(r, G.ExpectWord(tokens, old(pos), word), pos) && pos >= old(pos)
    {
      if tokens[pos].kind != Ident { return Failure(Fail(ExpectedKind(Ident), pos)); }
      if tokens[pos].text != word { return Failure(Fail(ExpectedWord(word), pos)); }
      pos := pos + 1;
      return Success(word);
    }

    method Opening(word: string) returns (r: Result<string, Fail>)
      requires Valid()
      modifies this
      ensures Valid() && Does(r, G.Opening(tokens, old(pos), word), pos)
    {
      var w :- ExpectWord(word);
      var name :- Expect(Ident);
      var open :- Expect(LBrace);
      return Success(name);
    }

    method Braces(word: string) returns (r: Result<string, Fail>)
      requires Valid()
      modifies this
      ensures Valid() && Does(r, G.Braces(tokens, old(pos), word), pos)
    {
      var w :- ExpectWord(word);
      r := Expect(LBrace);
    }

    /** _ident_list_until_rbrace() */
    method NamesUntilBrace() returns (r: Result<seq<string>, Fail>)
      requires Valid()
      modifies this
      ensures Valid() && Does(r, NamesFrom(tokens, old(pos), []), pos)
    {
      var names := [];
      while tokens[pos].kind != RBrace
        invariant Valid() && NamesFrom(tokens, old(pos), []) == NamesFrom(tokens, pos, names)
        decreases |tokens| - pos
      {
        var name :- Expect(Ident);
        names := names + [name];
      }
      return Success(names);
    }

    method NameBlock() returns (r: Result<seq<string>, Fail>)
      requires Valid()
      modifies this
      ensures Valid() && Does(r, G.NameBlock(tokens, old(pos)), pos)
    {
      var open :- Expect(LBrace);
      var names :- NamesUntilBrace();
      var close :- Expect(RBrace);
      return Success(names);
    }

    // -------------------------------------------------------------- agents and policies

    method AgentField(acc: AgentIR) returns (r: Result<AgentIR, Fail>)
      requires Valid()
      modifies this
      ensures Valid() && Does(r, G.AgentField(tokens, old(pos), acc), pos)
    {
      hide Unquote;
      var field :- Expect(Ident);
      if field == "provider" {
        var v :- Expect(Ident);
        return Success(acc.(provider := Some(v)));
      } else if field == "model" {
        var v :- Expect(Ident);
        return Success(acc.(model := Some(v)));
      } else if field == "prompt" {
        var v :- Expect(Text);
        return Success(acc.(prompt := Some(Unquote(v))));
      } else if field == "capabilities" {
        var v :- NameBlock();
        return Success(acc.(capabilities := v));
      } else if field == "tools" {
        var v :- NameBlock();
        return Success(acc.(tools := v));
      }
      return Failure(Fail(UnknownField(AgentSection), pos));
    }

    method ParseAgent() returns (r: Result<AgentIR, Fail>)
      requires Valid()
      modifies this
      ensures Valid() && Does(r, G.Agent(tokens, old(pos)), pos)
    {
      hide G.AgentField, G.Opening, FineAgent;
      var name :- Opening("agent");
      var agent := NewAgent(name);
      ghost var start := pos;
      while tokens[pos].kind != RBrace
        invariant Valid() && AgentFields(tokens, start, NewAgent(name)) == AgentFields(tokens, pos, agent)
        decreases |tokens| - pos
      {
        agent :- AgentField(agent);
      }
      var close := Expect(RBrace);    // the loop ended at a brace
      return Success(agent);
    }

    method PolicyField(acc: PolicyIR) returns (r: Result<PolicyIR, Fail>)
      requires Valid()
      modifies this
      ensures Valid() && Does(r, G.PolicyField(tokens, old(pos), acc), pos)
    {
      hide ParseDecimal, ParseDuration, Truncate;
      var field :- Expect(Ident);
      if field == "max_cost" {
        var v :- Expect(Dollar);
        return Success(acc.(maxCost := Some(ParseDecimal(v[1..]))));
      } else if field == "max_parallel" {
        var v :- Expect(Number);
        return Success(acc.(maxParallel := Some(Truncate(ParseDecimal(v)))));
      } else if field == "timeout" {
        var v :- Expect(Duration);
        return Success(acc.(maxRuntime := Some(ParseDuration(v))));
      } else if field == "approval" {
        var v :- Expect(Ident);
        return Success(acc.(approvalFor := acc.approvalFor + [v]));
      }
      return Failure(Fail(UnknownField(PolicySection), pos));
    }

    method ParsePolicy() returns (r: Result<PolicyIR, Fail>)
      requires Valid()
      modifies this
      ensures Valid() && Does(r, G.Policy(tokens, old(pos)), pos)
    {
      hide G.PolicyField, G.Braces, FinePolicy;
      var open :- Braces("policy");
      var policy := NO_POLICY;
      ghost var start := pos;
      while tokens[pos].kind != RBrace
        invariant Valid() && PolicyFields(tokens, start, NO_POLICY) == PolicyFields(tokens, pos, policy)
        decreases |tokens| - pos
      {
        policy :- PolicyField(policy);
      }
      var close := Expect(RBrace);    // the loop ended at a brace
      return Success(policy);
    }

    // -------------------------------------------------------------- statements

    method ParseParallel() returns (r: Result<Stmt, Fail>)
      requires Valid()
      modifies this
      ensures Valid() && Does(r, G.Parallel(tokens, old(pos)), pos)
    {
      var word :- ExpectWord("parallel");
      var members :- NameBlock();
      if |members| < 2 { return Failure(Fail(TooFewMembers, pos)); }
      return Success(ParallelStmt(members));
    }

    method ChoiceField(acc: Choice) returns (r: Result<Choice, Fail>)
      requires Valid()
      modifies this
      ensures Valid() && Does(r, G.ChoiceField(tokens, old(pos), acc), pos)
    {
      var field :- Expect(Ident);
      if field == "strategy" {
        var v :- Expect(Ident);
        if v !in STRATEGIES { return Failure(Fail(UnknownStrategy, pos)); }
        return Success(acc.(strategy := Some(v)));
      } else if field == "mode" {
        var v :- Expect(Ident);
        if v !in MODES { return Failure(Fail(UnknownMode, pos)); }
        return Success(acc.(mode := Some(v)));
      } else if field == "confidence" {
        var v :- Expect(Ident);
        if v != "true" && v != "false" { return Failure(Fail(BadConfidence, pos)); }
        return Success(acc.(confidence := v == "true"));
      }
      return Failure(Fail(UnknownField(ConsensusSection), pos));
    }

    method ParseConsensus() returns (r: Result<Stmt, Fail>)
      requires Valid()
      modifies this
      ensures Valid() && Does(r, G.Consensus(tokens, old(pos)), pos)
    {
      hide G.ChoiceField, FineChoice;
      var word :- ExpectWord("consensus");
      if tokens[pos].kind == LBrace {
        pos := pos + 1;
        var choice := Choice(None, None, false);
        ghost var start := pos;
        while tokens[pos].kind != RBrace
          invariant Valid() && ChoiceFields(tokens, start, Choice(None, None, false)) == ChoiceFields(tokens, pos, choice)
          decreases |tokens| - pos
        {
          choice :- ChoiceField(choice);
        }
        var close := Expect(RBrace);    // the loop ended at a brace
        if choice.strategy.None? { return Failure(Fail(NoStrategy, pos)); }
        return Success(ConsensusStmt(choice.strategy.value, choice.mode, choice.confidence));
      }
      var v :- Expect(Ident);
      if v !in STRATEGIES { return Failure(Fail(UnknownStrategy, pos)); }
      return Success(ConsensusStmt(v, None, false));
    }

    method ParseArtifact() returns (r: Result<Stmt, Fail>)
      requires Valid()
      modifies this
      ensures Valid() && Does(r, G.Artifact(tokens, old(pos)), pos)
    {
      hide FineStmt, ArtifactField;
      var word :- ExpectWord("artifact");
      var name :- Expect(Ident);
      var node := ArtifactStmt(name, None, None);
      if tokens[pos].kind == LBrace {
        pos := pos + 1;
        ghost var start, first := pos, node;
        while tokens[pos].kind != RBrace
          invariant Valid() && node.ArtifactStmt? && first == ArtifactStmt(name, None, None)
          invariant ArtifactFields(tokens, start, first) == ArtifactFields(tokens, pos, node)
          decreases |tokens| - pos
        {
          node :- ParseArtifactField(node);
        }
        var close := Expect(RBrace);    // the loop ended at a brace
      }
      return Success(node);
    }

    method ParseArtifactField(node: Stmt) returns (r: Result<Stmt, Fail>)
      requires Valid() && node.ArtifactStmt?
      modifies this
      ensures Valid() && Does(r, ArtifactField(tokens, old(pos), node), pos)
    {
      hide FineStmt;
      var field :- Expect(Ident);
      if field == "type" {
        var v :- Expect(Ident);
        return Success(node.(type_ := Some(v)));
      } else if field == "schema" {
        var v :- Expect(Ident);
        return Success(node.(schema := Some(v)));
      }
      return Failure(Fail(UnknownField(ArtifactSection), pos));
    }

    method ParseLet() returns (r: Result<Stmt, Fail>)
      requires Valid()
      modifies this
      ensures Valid() && Does(r, G.Let(tokens, old(pos)), pos)
    {
      var word :- ExpectWord("let");
      var name :- Expect(Ident);
      var equals :- Expect(Equals);
      var artifact :- ExpectWord("artifact");
      var target :- Expect(Ident);
      return Success(LetStmt(name, target));
    }

    method ParseApproval() returns (r: Result<Stmt, Fail>)
      requires Valid()
      modifies this
      ensures Valid() && Does(r, G.Approval(tokens, old(pos)), pos)
    {
      hide Unquote;
      var open :- Braces("approval");
      var message: Option<string> := None;
      ghost var start := pos;
      while tokens[pos].kind != RBrace
        invariant Valid() && ApprovalFields(tokens, start, None) == ApprovalFields(tokens, pos, message)
        decreases |tokens| - pos
      {
        var field :- Expect(Ident);
        if field != "message" { return Failure(Fail(UnknownField(ApprovalSection), pos)); }
        var v :- Expect(Text);
        message := Some(Unquote(v));
      }
      var close := Expect(RBrace);    // the loop ended at a brace
      return Success(ApprovalStmt(message));
    }

    method ParseScope() returns (r: Result<string, Fail>)
      requires Valid()
      modifies this
      ensures Valid() && Does(r, G.Scope(tokens, old(pos)), pos)
    {
      var scope :- Expect(Ident);
      if scope !in SCOPES { return Failure(Fail(UnknownScope, pos)); }
      return Success(scope);
    }

    method ParseCondition() returns (r: Result<Test, Fail>)
      requires Valid()
      modifies this
      ensures Valid() && Does(r, G.Condition(tokens, old(pos)), pos)
      ensures r.Success? ==> pos > old(pos)
    {
      hide ParseDecimal, FineTest;
      var word :- ExpectWord("if");
      var field :- Expect(Ident);
      if tokens[pos].kind != Comparator && tokens[pos].kind != Lt && tokens[pos].kind != Gt {
        return Failure(Fail(NotAComparator, pos));
      }
      var op := tokens[pos].text;
      pos := pos + 1;
      var value :- Expect(Number);
      var open :- Expect(LBrace);
      return Success(Test(field, op, ParseDecimal(value)));
    }

    method ParseIf() returns (r: Result<Stmt, Fail>)
      requires Valid()
      modifies this
      ensures Valid() && Does(r, G.If(tokens, old(pos)), pos)
      decreases |tokens| - pos, 0
    {
      hide G.Condition;
      var test :- ParseCondition();
      var body :- ParseBody();
      var close :- Expect(RBrace);
      return Success(IfStmt(test.field, test.op, test.value, body));
    }

    method ParseBody() returns (r: Result<seq<Stmt>, Fail>)
      requires Valid()
      modifies this
      ensures Valid() && Does(r, BodyFrom(tokens, old(pos), []), pos)
      decreases |tokens| - pos, 2
    {
      hide FineStmt;
      var body := [];
      while tokens[pos].kind != RBrace
        invariant Valid() && pos >= old(pos) && BodyFrom(tokens, old(pos), []) == BodyFrom(tokens, pos, body)
        decreases |tokens| - pos
      {
        var stmt :- ParseStatement();
        body := body + [stmt];
      }
      return Success(body);
    }

    method ParseStatement() returns (r: Result<Stmt, Fail>)
      requires Valid()
      modifies this
      ensures Valid() && Does(r, G.Statement(tokens, old(pos)), pos)
      decreases |tokens| - pos, 1
    {
      hide G.Parallel, G.Consensus, G.Artifact, G.Let, G.Approval, G.Scope, FineStmt;
      if AtWord(tokens, pos, "step") {
        pos := pos + 1;
        var ref :- Expect(Ident);
        return Success(StepStmt(ref));
      } else if AtWord(tokens, pos, "parallel") {
        r := ParseParallel();
      } else if AtWord(tokens, pos, "consensus") {
        r := ParseConsensus();
      } else if AtWord(tokens, pos, "artifact") {
        r := ParseArtifact();
      } else if AtWord(tokens, pos, "if") {
        r := ParseIf();
      } else if AtWord(tokens, pos, "let") {
        r := ParseLet();
      } else if AtWord(tokens, pos, "approval") {
        r := ParseApproval();
      } else if AtWord(tokens, pos, "memory") {
        pos := pos + 1;
        var scope :- ParseScope();
        return Success(MemoryStmt(scope));
      } else if tokens[pos].kind == Ident {
        pos := pos + 1;
        return Success(RefStmt(tokens[pos - 1].text));
      } else {
        return Failure(Fail(NotAStatement, pos));
      }
    }

    // -------------------------------------------------------------- the file

    method ParseWorkflow() returns (r: Result<WorkflowIR, Fail>)
      requires Valid()
      modifies this
      ensures Valid() && Does(r, G.Workflow(tokens, old(pos)), pos)
    {
      hide G.Opening;
      var name :- Opening("workflow");
      var body :- ParseBody();
      var close :- Expect(RBrace);
      return Success(WorkflowIR(name, body));
    }

    method ParseNameDeclaration(acc: IR) returns (r: Result<IR, Fail>)
      requires Valid()
      modifies this
      ensures Valid() && Does(r, NameDeclaration(tokens, old(pos), acc), pos)
    {
      var word :- Expect(Ident);
      var v :- Expect(Ident);
      if word == "import" { return Success(acc.(imports := acc.imports + [v])); }
      if word == "tool" { return Success(acc.(tools := acc.tools + [v])); }
      if word == "capability" { return Success(acc.(capabilities := acc.capabilities + [v])); }
      return Success(acc.(provider := Some(v)));
    }

    method ParseDeclaration(acc: IR) returns (r: Result<IR, Fail>)
      requires Valid()
      modifies this
      ensures Valid() && Does(r, Declaration(tokens, old(pos), acc), pos)
    {
      hide G.Agent, G.Policy, G.Workflow, G.Scope, NameDeclaration, Fine;
      if tokens[pos].kind != Ident || tokens[pos].text !in TOP_LEVEL { return Failure(Fail(NotTopLevel, pos)); }
      if tokens[pos].text == "memory" {
        pos := pos + 1;
        var v :- ParseScope();
        return Success(acc.(memory := Some(v)));
      } else if tokens[pos].text == "agent" {
        var v :- ParseAgent();
        return Success(acc.(agents := acc.agents + [v]));
      } else if tokens[pos].text == "policy" {
        var v :- ParsePolicy();
        return Success(acc.(policy := v));
      } else if tokens[pos].text == "workflow" {
        if acc.workflow.Some? { return Failure(Fail(SecondWorkflow, pos)); }
        var v :- ParseWorkflow();
        return Success(acc.(workflow := Some(v)));
      }
      r := ParseNameDeclaration(acc);
    }

    method ParseProgram() returns (r: Result<IR, Fail>)
      requires Valid() && pos == 0
      modifies this
      ensures Does(r, Program(tokens), pos)
    {
      hide Declaration, Fine;
      var ir := EMPTY;
      while tokens[pos].kind != EOF
        invariant Valid() && Declarations(tokens, 0, EMPTY) == Declarations(tokens, pos, ir)
        decreases |tokens| - pos
      {
        ir :- ParseDeclaration(ir);
      }
      if ir.workflow.None? { return Failure(Fail(NoWorkflow, pos)); }
      return Success(ir);
    }
  }

  /** parse(source): tokens, then the parser; an error carries the line and column of its token. */
  method Parse(source: string) returns (r: Result<IR, SyntaxError>)
    ensures r == ParseSource(source)
  {
    hide Program;
    var lexed := Tokenize(source);
    if lexed.Failure? { return Failure(Lexical(lexed.error)); }
    LexedStream(source);
    var parser := new Parser(lexed.value);
    var ir := parser.ParseProgram();
    match ir {
      case Success(v) => return Success(v);
      case Failure(f) =>
        return Failure(Grammatical(f.problem, lexed.value[f.at].line, lexed.value[f.at].column));
    }
  }
}
