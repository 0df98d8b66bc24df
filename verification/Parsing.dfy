/** Parsing source text, and the round trip through the printer for everything that parses. */
module Parsing {
  import opened Wrappers
  import opened Numerals
  import opened Lexers
  import opened Tokenizers
  import opened Decimals
  import opened Quoting
  import opened Grammars
  import opened Printers
  import opened Renderings
  import opened LexedTokens
  import opened RoundTrips

  datatype SyntaxError = Lexical(error: LexError) | Grammatical(problem: Problem, line: nat, column: nat)

  /** An error is reported at the line and column of a token. */
  function Located<T>(ts: seq<Token>, r: Parse<T>): Result<T, SyntaxError>
    requires r.Failure? ==> r.error.at < |ts|
  {
    match r
    case Success(parsed) => Success(parsed.value)
    case Failure(f) => Failure(Grammatical(f.problem, ts[f.at].line, ts[f.at].column))
  }

  /** parse(source) */
  function ParseSource(source: string): (r: Result<IR, SyntaxError>)
    ensures r.Success? ==> Fine(r.value) && r.value.workflow.Some?
  {
    match Lex(source, 0)
    case Failure(e) => Failure(Lexical(e))
    case Success(ts) =>
      LexedStream(source);
      Located(ts, Program(ts))
  }

  /** Every grammatical error is at the place of a token: the one to blame, or the one after it where `Blames` says so. */
  lemma ErrorsAreLocated(source: string)
    requires ParseSource(source).Failure? && ParseSource(source).error.Grammatical?
    ensures Lex(source, 0).Success?
    ensures var ts, e := Lex(source, 0).value, ParseSource(source).error;
      exists k: nat :: Blames(ts, Fail(e.problem, k)) && ts[k].line == e.line && ts[k].column == e.column
  {
    hide Blames, Program;
    LexedStream(source);
    var f := ProgramFails(source);
  }

  lemma ProgramFails(source: string) returns (f: Fail)
    requires ParseSource(source).Failure? && ParseSource(source).error.Grammatical?
    ensures Lex(source, 0).Success?
    ensures var ts, e := Lex(source, 0).value, ParseSource(source).error;
      f == Fail(e.problem, f.at) && Blames(ts, f) && ts[f.at].line == e.line && ts[f.at].column == e.column
  {
    LexedStream(source);
    f := Program(Lex(source, 0).value).error;
  }

  // ---------------------------------------------------------------- the tokens of a file

  /** `Declarations` under a name that proofs can keep folded. */
  function DeclRest(ts: seq<Token>, pos: nat, acc: IR): Parse<IR>
    requires At(ts, pos)
  {
    Declarations(ts, pos, acc)
  }

  lemma DeclStep(ts: seq<Token>, pos: nat, acc: IR, n: nat, more: IR)
    requires At(ts, pos) && ts[pos].kind == Ident && Declaration(ts, pos, acc) == Success(Parsed(more, n))
    ensures At(ts, n) && DeclRest(ts, pos, acc) == DeclRest(ts, n, more)
  {
    hide Declaration;
  }

  function WithNames(acc: IR, word: string, names: seq<string>): IR {
    if word == "import" then acc.(imports := acc.imports + names)
    else if word == "tool" then acc.(tools := acc.tools + names)
    else acc.(capabilities := acc.capabilities + names)
  }

  predicate IsListWord(word: string) {
    word == "import" || word == "tool" || word == "capability"
  }

  lemma DeclareName(ts: seq<Token>, pos: nat, acc: IR, word: string, name: string, rest: seq<Lexeme>)
    requires Stream(ts) && Spells(ts, pos, [W(word), W(name)] + rest) && IsListWord(word)
    ensures At(ts, pos) && At(ts, pos + 2) && Spells(ts, pos + 2, rest)
    ensures DeclRest(ts, pos, acc) == DeclRest(ts, pos + 2, WithNames(acc, word, [name]))
  {
    hide Spells, Stream, DeclRest;
    assert [W(word), W(name)] + rest == [W(word)] + ([W(name)] + rest);
    Next(ts, pos, W(word), [W(name)] + rest);
    Next(ts, pos + 1, W(name), rest);
    DeclStep(ts, pos, acc, pos + 2, WithNames(acc, word, [name]));
  }

  lemma WithNamesTwice(acc: IR, word: string, name: string, names: seq<string>)
    ensures WithNames(WithNames(acc, word, [name]), word, names) == WithNames(acc, word, [name] + names)
  {
    assert acc.imports + [name] + names == acc.imports + ([name] + names);
    assert acc.tools + [name] + names == acc.tools + ([name] + names);
    assert acc.capabilities + [name] + names == acc.capabilities + ([name] + names);
  }

  lemma WithNoNames(acc: IR, word: string)
    ensures WithNames(acc, word, []) == acc
  {
    assert acc.imports + [] == acc.imports && acc.tools + [] == acc.tools && acc.capabilities + [] == acc.capabilities;
  }

  lemma {:induction false} DeclaredRound(ts: seq<Token>, pos: nat, acc: IR, word: string, names: seq<string>, rest: seq<Lexeme>)
    requires At(ts, pos) && Spells(ts, pos, Declared(word, names) + rest) && IsListWord(word)
    ensures var n := pos + |Declared(word, names)|;
      && At(ts, n) && Spells(ts, n, rest)
      && DeclRest(ts, pos, acc) == DeclRest(ts, n, WithNames(acc, word, names))
    decreases |names|
  {
    hide Spells, Stream, DeclRest, WithNames, IsListWord;
    if names == [] {
      assert Declared(word, names) + rest == rest;
      WithNoNames(acc, word);
    } else {
      var tail := Declared(word, names[1..]) + rest;
      assert Declared(word, names) + rest == [W(word), W(names[0])] + tail;
      DeclareName(ts, pos, acc, word, names[0], tail);
      DeclaredRound(ts, pos + 2, WithNames(acc, word, [names[0]]), word, names[1..], rest);
      WithNamesTwice(acc, word, names[0], names[1..]);
      assert [names[0]] + names[1..] == names;
    }
  }

  lemma ProviderRound(ts: seq<Token>, pos: nat, acc: IR, v: Option<string>)
    requires At(ts, pos) && Spells(ts, pos, MaybeField("provider", Named(v))) && acc.provider.None?
    ensures var n := pos + |MaybeField("provider", Named(v))|;
      At(ts, n) && DeclRest(ts, pos, acc) == DeclRest(ts, n, acc.(provider := v))
  {
    hide Spells, Stream, DeclRest;
    FieldNext(ts, pos, "provider", Named(v));
    if v.Some? { DeclStep(ts, pos, acc, pos + 2, acc.(provider := v)); }
  }

  lemma MemoryDeclRound(ts: seq<Token>, pos: nat, acc: IR, v: Option<string>)
    requires At(ts, pos) && Spells(ts, pos, MaybeField("memory", Named(v))) && acc.memory.None? && (v.Some? ==> v.value in SCOPES)
    ensures var n := pos + |MaybeField("memory", Named(v))|;
      At(ts, n) && DeclRest(ts, pos, acc) == DeclRest(ts, n, acc.(memory := v))
  {
    hide Spells, Stream, DeclRest;
    FieldNext(ts, pos, "memory", Named(v));
    if v.Some? { DeclStep(ts, pos, acc, pos + 2, acc.(memory := v)); }
  }

  lemma AgentStart(a: AgentIR)
    ensures |PrintAgent(a)| > 0 && PrintAgent(a)[0] == W("agent")
  {
  }

  lemma PolicyStart(p: PolicyIR)
    ensures |PrintPolicy(p)| > 0 && PrintPolicy(p)[0] == W("policy")
  {
  }

  lemma DeclareAgent(ts: seq<Token>, pos: nat, acc: IR, a: AgentIR)
    requires Stream(ts) && Spells(ts, pos, PrintAgent(a)) && FineAgent(a)
    ensures At(ts, pos) && At(ts, pos + |PrintAgent(a)|)
    ensures DeclRest(ts, pos, acc) == DeclRest(ts, pos + |PrintAgent(a)|, acc.(agents := acc.agents + [a]))
  {
    hide Spells, Stream, DeclRest, Agent, PrintAgent, FineAgent;
    AgentRound(ts, pos, a);
    AgentStart(a);
    SpelledAt(ts, pos, PrintAgent(a), 0);
    assert ts[pos + 0] == ts[pos];
    DeclStep(ts, pos, acc, pos + |PrintAgent(a)|, acc.(agents := acc.agents + [a]));
  }

  predicate FineAgents(agents: seq<AgentIR>) {
    forall i | 0 <= i < |agents| :: FineAgent(agents[i])
  }

  lemma {:induction false} AgentsRound(ts: seq<Token>, pos: nat, acc: IR, agents: seq<AgentIR>, rest: seq<Lexeme>)
    requires At(ts, pos) && Spells(ts, pos, PrintAgents(agents) + rest) && FineAgents(agents)
    ensures var n := pos + |PrintAgents(agents)|;
      && At(ts, n) && Spells(ts, n, rest)
      && DeclRest(ts, pos, acc) == DeclRest(ts, n, acc.(agents := acc.agents + agents))
    decreases |agents|
  {
    hide Spells, Stream, DeclRest, PrintAgent, FineAgent;
    if agents == [] {
      assert PrintAgents(agents) + rest == rest && acc.agents + agents == acc.agents;
    } else {
      var a := agents[0];
      var tail := PrintAgents(agents[1..]) + rest;
      assert PrintAgents(agents) + rest == PrintAgent(a) + tail;
      Split(ts, pos, PrintAgent(a), tail);
      DeclareAgent(ts, pos, acc, a);
      AgentsRound(ts, pos + |PrintAgent(a)|, acc.(agents := acc.agents + [a]), agents[1..], rest);
      assert acc.agents + [a] + agents[1..] == acc.agents + agents;
    }
  }

  lemma DeclarePolicy(ts: seq<Token>, pos: nat, acc: IR, p: PolicyIR)
    requires Stream(ts) && Spells(ts, pos, PrintPolicy(p)) && FinePolicy(p)
    ensures At(ts, pos) && At(ts, pos + |PrintPolicy(p)|)
    ensures DeclRest(ts, pos, acc) == DeclRest(ts, pos + |PrintPolicy(p)|, acc.(policy := p))
  {
    hide Spells, Stream, DeclRest, Policy, PrintPolicy, FinePolicy;
    PolicyRound(ts, pos, p);
    PolicyStart(p);
    SpelledAt(ts, pos, PrintPolicy(p), 0);
    assert ts[pos + 0] == ts[pos];
    DeclStep(ts, pos, acc, pos + |PrintPolicy(p)|, acc.(policy := p));
  }

  lemma WorkflowRound(ts: seq<Token>, pos: nat, w: WorkflowIR)
    requires Stream(ts) && Spells(ts, pos, PrintWorkflow(w)) && FineBody(w.body)
    ensures At(ts, pos) && AtWord(ts, pos, "workflow")
    ensures Workflow(ts, pos) == Success(Parsed(w, pos + |PrintWorkflow(w)|)) && At(ts, pos + |PrintWorkflow(w)|)
  {
    hide Spells, Stream, FineBody, Expect, Opening;
    OpeningRound(ts, pos, "workflow", w.name, PrintBody(w.body) + [CLOSE]);
    BodyRound(ts, pos + 3, [], w.body);
    assert [] + w.body == w.body;
    Closing(ts, pos + 3 + |PrintBody(w.body)|);
  }

  lemma DeclareWorkflow(ts: seq<Token>, pos: nat, acc: IR, w: WorkflowIR)
    requires Stream(ts) && Spells(ts, pos, PrintWorkflow(w)) && FineBody(w.body) && acc.workflow.None?
    ensures At(ts, pos) && At(ts, pos + |PrintWorkflow(w)|)
    ensures DeclRest(ts, pos, acc) == DeclRest(ts, pos + |PrintWorkflow(w)|, acc.(workflow := Some(w)))
  {
    hide Spells, Stream, DeclRest, Workflow, PrintWorkflow, FineBody;
    WorkflowRound(ts, pos, w);
    DeclStep(ts, pos, acc, pos + |PrintWorkflow(w)|, acc.(workflow := Some(w)));
  }

  lemma DeclEnd(ts: seq<Token>, pos: nat, acc: IR)
    requires At(ts, pos) && ts[pos].kind == EOF && acc.workflow.Some?
    ensures DeclRest(ts, pos, acc) == Success(Parsed(acc, pos))
  {
  }

  /** The declarations before the agents. */
  lemma HeaderRound(ts: seq<Token>, ir: IR, rest: seq<Lexeme>)
    requires At(ts, 0) && Fine(ir)
    requires Spells(ts, 0, Declared("import", ir.imports) + (Declared("tool", ir.tools) + (Declared("capability", ir.capabilities)
                           + (MaybeField("provider", Named(ir.provider)) + (MaybeField("memory", Named(ir.memory)) + rest)))))
    ensures var n := |Declared("import", ir.imports)| + |Declared("tool", ir.tools)| + |Declared("capability", ir.capabilities)|
                     + |MaybeField("provider", Named(ir.provider))| + |MaybeField("memory", Named(ir.memory))|;
      && At(ts, n) && Spells(ts, n, rest)
      && DeclRest(ts, 0, EMPTY) == DeclRest(ts, n, ir.(agents := [], policy := NO_POLICY, workflow := None))
  {
    hide Spells, Stream, DeclRest, MaybeField, Named, FinePolicy, FineBody, AllNames;
    var l1, l2, l3 := Declared("import", ir.imports), Declared("tool", ir.tools), Declared("capability", ir.capabilities);
    var f1, f2 := MaybeField("provider", Named(ir.provider)), MaybeField("memory", Named(ir.memory));
    DeclaredRound(ts, 0, EMPTY, "import", ir.imports, l2 + (l3 + (f1 + (f2 + rest))));
    var p1, a1 := |l1|, WithNames(EMPTY, "import", ir.imports);
    DeclaredRound(ts, p1, a1, "tool", ir.tools, l3 + (f1 + (f2 + rest)));
    var p2, a2 := p1 + |l2|, WithNames(a1, "tool", ir.tools);
    DeclaredRound(ts, p2, a2, "capability", ir.capabilities, f1 + (f2 + rest));
    var p3, a3 := p2 + |l3|, WithNames(a2, "capability", ir.capabilities);
    Split(ts, p3, f1, f2 + rest);
    ProviderRound(ts, p3, a3, ir.provider);
    var p4, a4 := p3 + |f1|, a3.(provider := ir.provider);
    Split(ts, p4, f2, rest);
    MemoryDeclRound(ts, p4, a4, ir.memory);
    assert [] + ir.imports == ir.imports && [] + ir.tools == ir.tools && [] + ir.capabilities == ir.capabilities;
  }

  /** The agents, the policy and the workflow. */
  lemma RestRound(ts: seq<Token>, pos: nat, ir: IR)
    requires At(ts, pos) && Fine(ir) && ir.workflow.Some?
    requires Spells(ts, pos, PrintAgents(ir.agents) + (PrintPolicy(ir.policy) + PrintWorkflow(ir.workflow.value)))
    ensures var n := pos + |PrintAgents(ir.agents)| + |PrintPolicy(ir.policy)| + |PrintWorkflow(ir.workflow.value)|;
      && At(ts, n)
      && DeclRest(ts, pos, ir.(agents := [], policy := NO_POLICY, workflow := None)) == DeclRest(ts, n, ir)
  {
    hide Spells, Stream, DeclRest, PrintPolicy, PrintWorkflow, FinePolicy, FineBody, AllNames, FineAgent;
    var w := ir.workflow.value;
    var start := ir.(agents := [], policy := NO_POLICY, workflow := None);
    AgentsRound(ts, pos, start, ir.agents, PrintPolicy(ir.policy) + PrintWorkflow(w));
    var p1, a1 := pos + |PrintAgents(ir.agents)|, start.(agents := start.agents + ir.agents);
    Split(ts, p1, PrintPolicy(ir.policy), PrintWorkflow(w));
    DeclarePolicy(ts, p1, a1, ir.policy);
    DeclareWorkflow(ts, p1 + |PrintPolicy(ir.policy)|, a1.(policy := ir.policy), w);
    assert [] + ir.agents == ir.agents;
  }

  /** The tokens the printer writes parse to what was printed. */
  lemma TokensRoundTrip(ts: seq<Token>, ir: IR)
    requires Stream(ts) && Fine(ir) && ir.workflow.Some?
    requires Spells(ts, 0, PrintIR(ir)) && |ts| == |PrintIR(ir)| + 1
    ensures Program(ts) == Success(Parsed(ir, |PrintIR(ir)|))
  {
    hide Spells, DeclRest, PrintPolicy, PrintWorkflow, MaybeField, Fine;
    var rest := PrintAgents(ir.agents) + (PrintPolicy(ir.policy) + PrintWorkflow(ir.workflow.value));
    HeaderRound(ts, ir, rest);
    var n := |Declared("import", ir.imports)| + |Declared("tool", ir.tools)| + |Declared("capability", ir.capabilities)|
             + |MaybeField("provider", Named(ir.provider))| + |MaybeField("memory", Named(ir.memory))|;
    RestRound(ts, n, ir);
    DeclEnd(ts, |ts| - 1, ir);
    ProgramIs(ts);
  }

  lemma ProgramIs(ts: seq<Token>)
    requires Stream(ts)
    ensures Program(ts) == DeclRest(ts, 0, EMPTY)
  {
  }

  // ---------------------------------------------------------------- what is printed can be lexed

  lemma ProperConcat(a: seq<Lexeme>, b: seq<Lexeme>)
    requires AllProper(a) && AllProper(b)
    ensures AllProper(a + b)
  {
  }

  lemma WordProper(w: string)
    requires IsName(w)
    ensures Proper(W(w))
  {
  }

  lemma BracesProper()
    ensures Proper(OPEN) && Proper(CLOSE) && Proper(Lexeme(Equals, "="))
  {
  }

  lemma BlockProper(names: seq<string>)
    requires AllNames(names)
    ensures AllProper(Block(names))
  {
    hide Proper;
    BracesProper();
    forall i | 0 <= i < |names| ensures Proper(Names(names)[i]) { WordProper(names[i]); }
  }

  lemma FieldProper(word: string, value: Option<Lexeme>)
    requires IsName(word) && (value.Some? ==> Proper(value.value))
    ensures AllProper(MaybeField(word, value))
  {
    hide Proper, IsName;
    WordProper(word);
  }

  lemma NamedProper(name: Option<string>)
    requires MaybeName(name)
    ensures Named(name).Some? ==> Proper(Named(name).value)
  {
  }

  lemma QuotedProper(text: Option<string>)
    requires MaybeLine(text)
    ensures Quoted(text).Some? ==> Proper(Quoted(text).value)
  {
    hide Quote;
    if text.Some? { QuoteRoundTrip(text.value); }
  }

  lemma DollarsProper(d: Option<Decimal>)
    requires MaybeNormal(d)
    ensures Dollars(d).Some? ==> Proper(Dollars(d).value)
  {
    hide PrintDecimal, IsLiteral;
    if d.Some? {
      DecimalRoundTrip(d.value);
      assert ("$" + PrintDecimal(d.value))[1..] == PrintDecimal(d.value);
    }
  }

  lemma CountedProper(n: Option<nat>)
    ensures Counted(n).Some? ==> Proper(Counted(n).value)
  {
    if n.Some? { IntegerRoundTrip(n.value); }
  }

  lemma TimedProper(d: Option<Decimal>)
    requires MaybeNormal(d)
    ensures Timed(d).Some? ==> Proper(Timed(d).value)
  {
    hide PrintDuration, IsDurationText;
    if d.Some? { DurationRoundTrip(d.value); }
  }

  lemma TopLevelNames()
    ensures forall w | w in TOP_LEVEL :: IsName(w)
  {
    assert IsName("import") && IsName("tool") && IsName("capability") && IsName("provider");
    assert IsName("memory") && IsName("agent") && IsName("policy") && IsName("workflow");
  }

  lemma StatementNames()
    ensures forall w | w in STATEMENTS :: IsName(w)
  {
    assert IsName("step") && IsName("parallel") && IsName("consensus") && IsName("artifact");
    assert IsName("if") && IsName("let") && IsName("approval") && IsName("memory");
  }

  lemma ChoiceNames()
    ensures forall w | w in STRATEGIES + MODES + SCOPES :: IsName(w)
  {
    assert IsName("majority") && IsName("unanimous") && IsName("judge") && IsName("select") && IsName("synthesize");
    assert IsName("session") && IsName("project") && IsName("temporary");
  }

  lemma FieldNames()
    ensures IsName("model") && IsName("prompt") && IsName("capabilities") && IsName("tools")
    ensures IsName("max_cost") && IsName("max_parallel") && IsName("timeout")
  {
  }

  lemma OtherFieldNames()
    ensures IsName("strategy") && IsName("mode") && IsName("confidence") && IsName("true")
    ensures IsName("type") && IsName("schema") && IsName("message")
  {
  }

  /** Each of the words the printer writes is a name. */
  lemma KeywordsAreNames()
    ensures forall w | w in TOP_LEVEL || w in STATEMENTS || w in STRATEGIES || w in MODES || w in SCOPES :: IsName(w)
    ensures IsName("model") && IsName("prompt") && IsName("capabilities") && IsName("tools")
    ensures IsName("max_cost") && IsName("max_parallel") && IsName("timeout")
    ensures IsName("strategy") && IsName("mode") && IsName("confidence") && IsName("true")
    ensures IsName("type") && IsName("schema") && IsName("message")
  {
    hide IsName;
    TopLevelNames();
    StatementNames();
    ChoiceNames();
    FieldNames();
    OtherFieldNames();
  }

  lemma AgentProper(a: AgentIR)
    requires FineAgent(a)
    ensures AllProper(PrintAgent(a))
  {
    hide Proper, IsName, MaybeField, Block, Named, Quoted;
    KeywordsAreNames();
    BracesProper();
    WordProper("agent");
    WordProper(a.name);
    WordProper("capabilities");
    WordProper("tools");
    NamedProper(a.provider);
    NamedProper(a.model);
    QuotedProper(a.prompt);
    var f1, f2, f3 := MaybeField("provider", Named(a.provider)), MaybeField("model", Named(a.model)), MaybeField("prompt", Quoted(a.prompt));
    FieldProper("provider", Named(a.provider));
    FieldProper("model", Named(a.model));
    FieldProper("prompt", Quoted(a.prompt));
    BlockProper(a.capabilities);
    BlockProper(a.tools);
    assert PrintAgent(a) == [W("agent"), W(a.name), OPEN] + f1 + f2 + f3 + [W("capabilities")] + Block(a.capabilities)
                            + [W("tools")] + Block(a.tools) + [CLOSE];
  }

  lemma {:induction false} ApprovalsProper(names: seq<string>)
    requires AllNames(names)
    ensures AllProper(Approvals(names))
    decreases |names|
  {
    hide Proper, IsName;
    if names != [] {
      ApprovalsProper(names[1..]);
      KeywordsAreNames();
      WordProper("approval");
      WordProper(names[0]);
    }
  }

  lemma PolicyProper(p: PolicyIR)
    requires FinePolicy(p)
    ensures AllProper(PrintPolicy(p))
  {
    hide Proper, IsName, MaybeField, Dollars, Counted, Timed;
    KeywordsAreNames();
    BracesProper();
    WordProper("policy");
    DollarsProper(p.maxCost);
    CountedProper(p.maxParallel);
    TimedProper(p.maxRuntime);
    FieldProper("max_cost", Dollars(p.maxCost));
    FieldProper("max_parallel", Counted(p.maxParallel));
    FieldProper("timeout", Timed(p.maxRuntime));
    ApprovalsProper(p.approvalFor);
    assert PrintPolicy(p) == [W("policy"), OPEN] + MaybeField("max_cost", Dollars(p.maxCost))
      + MaybeField("max_parallel", Counted(p.maxParallel)) + MaybeField("timeout", Timed(p.maxRuntime)) + Approvals(p.approvalFor) + [CLOSE];
  }

  lemma ChoiceFieldsProper(strategy: string, mode: Option<string>, confidence: bool)
    requires strategy in STRATEGIES && (mode.Some? ==> mode.value in MODES)
    ensures AllProper(ChoiceFieldsOf(strategy, mode, confidence))
  {
    hide Proper, IsName, MaybeField, Named;
    KeywordsAreNames();
    WordProper("strategy");
    WordProper("true");
    WordProper(strategy);
    ModeNamed(mode);
    FieldProper("mode", Named(mode));
    FieldProper("confidence", if confidence then Some(W("true")) else None);
  }

  lemma ConsensusProper(s: Stmt)
    requires s.ConsensusStmt? && FineStmt(s)
    ensures AllProper(PrintStmt(s))
  {
    hide Proper, IsName, ChoiceFieldsOf;
    StatementNames();
    BracesProper();
    WordProper("consensus");
    ChoiceFieldsProper(s.strategy, s.mode, s.confidence);
  }

  lemma ModeNamed(mode: Option<string>)
    requires mode.Some? ==> mode.value in MODES
    ensures Named(mode).Some? ==> Proper(Named(mode).value)
  {
    KeywordsAreNames();
  }

  lemma ArtifactProper(s: Stmt)
    requires s.ArtifactStmt? && FineStmt(s)
    ensures AllProper(PrintStmt(s))
  {
    hide Proper, IsName, MaybeField, Named;
    KeywordsAreNames();
    BracesProper();
    WordProper("artifact");
    WordProper(s.name);
    NamedProper(s.type_);
    NamedProper(s.schema);
    FieldProper("type", Named(s.type_));
    FieldProper("schema", Named(s.schema));
    assert PrintStmt(s) == [W("artifact"), W(s.name), OPEN] + MaybeField("type", Named(s.type_)) + MaybeField("schema", Named(s.schema)) + [CLOSE];
  }

  lemma ApprovalProper(s: Stmt)
    requires s.ApprovalStmt? && FineStmt(s)
    ensures AllProper(PrintStmt(s))
  {
    hide Proper, IsName, MaybeField, Quoted;
    KeywordsAreNames();
    BracesProper();
    WordProper("approval");
    QuotedProper(s.message);
    FieldProper("message", Quoted(s.message));
    assert PrintStmt(s) == [W("approval"), OPEN] + MaybeField("message", Quoted(s.message)) + [CLOSE];
  }

  lemma OperatorProper(op: string)
    requires op in COMPARATORS
    ensures Proper(OperatorLexeme(op))
  {
  }

  lemma {:induction false} IfProper(s: Stmt)
    requires s.IfStmt? && FineStmt(s)
    ensures AllProper(PrintStmt(s))
    decreases s, 0
  {
    hide Proper, IsName, PrintDecimal;
    KeywordsAreNames();
    BracesProper();
    WordProper("if");
    WordProper(s.field);
    OperatorProper(s.op);
    NumberProper(s.value);
    BodyProper(s.then_);
    assert PrintStmt(s) == [W("if"), W(s.field), OperatorLexeme(s.op), Lexeme(Number, PrintDecimal(s.value)), OPEN] + PrintBody(s.then_) + [CLOSE];
  }

  lemma NumberProper(d: Decimal)
    requires Normal(d)
    ensures Proper(Lexeme(Number, PrintDecimal(d)))
  {
    hide PrintDecimal, IsLiteral;
    DecimalRoundTrip(d);
  }

  lemma LetProper(s: Stmt)
    requires s.LetStmt? && FineStmt(s)
    ensures AllProper(PrintStmt(s))
  {
    hide Proper, IsName;
    KeywordsAreNames();
    BracesProper();
    WordProper("let");
    WordProper("artifact");
    WordProper(s.name);
    WordProper(s.artifact);
  }

  lemma {:induction false} StmtProper(s: Stmt)
    requires FineStmt(s)
    ensures AllProper(PrintStmt(s))
    decreases s, 1
  {
    hide Proper, IsName, Block;
    match s
    case StepStmt(ref) => KeywordsAreNames(); WordProper("step"); WordProper(ref);
    case RefStmt(name) => WordProper(name);
    case ParallelStmt(members) => KeywordsAreNames(); WordProper("parallel"); BlockProper(members);
    case ConsensusStmt(_, _, _) => ConsensusProper(s);
    case ArtifactStmt(_, _, _) => ArtifactProper(s);
    case IfStmt(_, _, _, _) => IfProper(s);
    case LetStmt(_, _) => LetProper(s);
    case ApprovalStmt(_) => ApprovalProper(s);
    case MemoryStmt(scope) => KeywordsAreNames(); WordProper("memory"); WordProper(scope);
  }

  lemma {:induction false} BodyProper(body: seq<Stmt>)
    requires FineBody(body)
    ensures AllProper(PrintBody(body))
    decreases body, 2
  {
    hide Proper;
    if body != [] {
      StmtProper(body[0]);
      BodyProper(body[1..]);
      ProperConcat(PrintStmt(body[0]), PrintBody(body[1..]));
    }
  }

  lemma WorkflowProper(w: WorkflowIR)
    requires IsName(w.name) && FineBody(w.body)
    ensures AllProper(PrintWorkflow(w))
  {
    hide Proper, IsName;
    KeywordsAreNames();
    BracesProper();
    WordProper("workflow");
    WordProper(w.name);
    BodyProper(w.body);
    assert PrintWorkflow(w) == [W("workflow"), W(w.name), OPEN] + PrintBody(w.body) + [CLOSE];
  }

  lemma {:induction false} DeclaredProper(word: string, names: seq<string>)
    requires IsName(word) && AllNames(names)
    ensures AllProper(Declared(word, names))
    decreases |names|
  {
    hide Proper, IsName;
    if names != [] {
      DeclaredProper(word, names[1..]);
      WordProper(word);
      WordProper(names[0]);
    }
  }

  lemma {:induction false} AgentsProper(agents: seq<AgentIR>)
    requires FineAgents(agents)
    ensures AllProper(PrintAgents(agents))
    decreases |agents|
  {
    hide Proper, FineAgent, PrintAgent;
    if agents != [] {
      AgentProper(agents[0]);
      AgentsProper(agents[1..]);
      ProperConcat(PrintAgent(agents[0]), PrintAgents(agents[1..]));
    }
  }

  lemma MemoryNamed(memory: Option<string>)
    requires memory.Some? ==> memory.value in SCOPES
    ensures Named(memory).Some? ==> Proper(Named(memory).value)
  {
    KeywordsAreNames();
  }

  lemma IRProper(ir: IR)
    requires Fine(ir) && ir.workflow.Some?
    ensures AllProper(PrintIR(ir))
  {
    hide Proper, IsName, MaybeField, Named, FineAgent, FinePolicy, FineBody, PrintPolicy, PrintWorkflow, AllNames, AllProper;
    KeywordsAreNames();
    var l1, l2, l3 := Declared("import", ir.imports), Declared("tool", ir.tools), Declared("capability", ir.capabilities);
    var f1, f2 := MaybeField("provider", Named(ir.provider)), MaybeField("memory", Named(ir.memory));
    var w, p, a := PrintWorkflow(ir.workflow.value), PrintPolicy(ir.policy), PrintAgents(ir.agents);
    DeclaredProper("import", ir.imports);
    DeclaredProper("tool", ir.tools);
    DeclaredProper("capability", ir.capabilities);
    NamedProper(ir.provider);
    MemoryNamed(ir.memory);
    FieldProper("provider", Named(ir.provider));
    FieldProper("memory", Named(ir.memory));
    AgentsProper(ir.agents);
    PolicyProper(ir.policy);
    WorkflowProper(ir.workflow.value);
    ProperConcat(p, w);
    ProperConcat(a, p + w);
    ProperConcat(f2, a + (p + w));
    ProperConcat(f1, f2 + (a + (p + w)));
    ProperConcat(l3, f1 + (f2 + (a + (p + w))));
    ProperConcat(l2, l3 + (f1 + (f2 + (a + (p + w)))));
    ProperConcat(l1, l2 + (l3 + (f1 + (f2 + (a + (p + w))))));
  }

  // ---------------------------------------------------------------- the round trip

  /** Everything that could come out of a parse, printed and parsed, is itself. */
  lemma PrintThenParse(ir: IR)
    requires Fine(ir) && ir.workflow.Some?
    ensures ParseSource(Source(ir)) == Success(ir)
  {
    hide Fine, AllProper, Program;
    var ls := PrintIR(ir);
    IRProper(ir);
    LexRendered(ls);
    LexedStream(Source(ir));
    var ts := Lex(Source(ir), 0).value;
    StrippedSpells(ts, ls);
    TokensRoundTrip(ts, ir);
  }

  lemma StrippedSpells(ts: seq<Token>, ls: seq<Lexeme>)
    requires |ts| == |ls| + 1 && Strip(ts[..|ls|]) == ls
    ensures Spells(ts, 0, ls)
  {
    forall k | 0 <= k < |ls| ensures ts[0 + k].kind == ls[k].kind && ts[0 + k].text == ls[k].text {
      assert ls[k] == Strip(ts[..|ls|])[k];
    }
  }

  /** The round trip: whatever source parses, its representation printed and parsed again is identical. */
  lemma RoundTrip(source: string)
    requires ParseSource(source).Success?
    ensures ParseSource(source).value.workflow.Some?
    ensures ParseSource(Source(ParseSource(source).value)) == ParseSource(source)
  {
    hide ParseSource;
    ParsedIsFine(source);
    PrintThenParse(ParseSource(source).value);
  }

  lemma ParsedIsFine(source: string)
    requires ParseSource(source).Success?
    ensures Fine(ParseSource(source).value) && ParseSource(source).value.workflow.Some?
  {
  }
}
