/**
 AirLang's grammar: the intermediate representation, and the recursive descent over tokens as functions
 of the token list and a position.  The parser class in Parsers.dfy is proved against these functions.
 */
module Grammars {
  import opened Wrappers
  import opened Lexers
  import opened Tokenizers
  import opened Decimals
  import opened Quoting

  // ---------------------------------------------------------------- the representation

  datatype AgentIR = AgentIR(
    name: string, provider: Option<string>, model: Option<string>,
    capabilities: seq<string>, tools: seq<string>, prompt: Option<string>)

  datatype PolicyIR = PolicyIR(
    maxCost: Option<Decimal>, maxParallel: Option<nat>, maxRuntime: Option<Decimal>, approvalFor: seq<string>)

  datatype Stmt =
    | StepStmt(ref: string)
    | RefStmt(name: string)
    | ParallelStmt(members: seq<string>)
    | ConsensusStmt(strategy: string, mode: Option<string>, confidence: bool)
    | ArtifactStmt(name: string, type_: Option<string>, schema: Option<string>)
    | IfStmt(field: string, op: string, value: Decimal, then_: seq<Stmt>)
    | LetStmt(name: string, artifact: string)
    | ApprovalStmt(message: Option<string>)
    | MemoryStmt(scope: string)

  datatype WorkflowIR = WorkflowIR(name: string, body: seq<Stmt>)

  /** The workflow is None only while the file is being read. */
  datatype IR = IR(
    imports: seq<string>, tools: seq<string>, capabilities: seq<string>,
    provider: Option<string>, memory: Option<string>,
    agents: seq<AgentIR>, policy: PolicyIR, workflow: Option<WorkflowIR>)

  const TOP_LEVEL: set<string> := {"import", "tool", "capability", "provider", "memory", "agent", "policy", "workflow"}
  const STATEMENTS: set<string> := {"step", "parallel", "consensus", "artifact", "if", "let", "approval", "memory"}
  const STRATEGIES: set<string> := {"majority", "unanimous", "judge"}
  const MODES: set<string> := {"select", "synthesize"}
  const SCOPES: set<string> := {"session", "project", "temporary"}
  const COMPARATORS: set<string> := {"<", ">", "<=", ">=", "==", "!="}

  const NO_POLICY := PolicyIR(None, None, None, [])
  const EMPTY := IR([], [], [], None, None, [], NO_POLICY, None)

  // ---------------------------------------------------------------- what a parse can contain

  predicate IsName(t: string) {
    t != "" && (IsLetter(t[0]) || t[0] == '_') && All(t, 1, |t|, NameRest)
  }

  predicate AllNames(names: seq<string>) {
    forall i | 0 <= i < |names| :: IsName(names[i])
  }

  predicate MaybeName(name: Option<string>) {
    name.Some? ==> IsName(name.value)
  }

  predicate MaybeLine(text: Option<string>) {
    text.Some? ==> Newlines(text.value) == 0
  }

  predicate MaybeNormal(d: Option<Decimal>) {
    d.Some? ==> Normal(d.value)
  }

  predicate FineAgent(a: AgentIR) {
    && IsName(a.name) && MaybeName(a.provider) && MaybeName(a.model)
    && AllNames(a.capabilities) && AllNames(a.tools) && MaybeLine(a.prompt)
  }

  predicate FinePolicy(p: PolicyIR) {
    MaybeNormal(p.maxCost) && MaybeNormal(p.maxRuntime) && AllNames(p.approvalFor)
  }

  predicate FineStmt(s: Stmt) {
    match s
    case StepStmt(ref) => IsName(ref)
    case RefStmt(name) => IsName(name) && name !in STATEMENTS
    case ParallelStmt(members) => AllNames(members) && |members| >= 2
    case ConsensusStmt(strategy, mode, _) => strategy in STRATEGIES && (mode.Some? ==> mode.value in MODES)
    case ArtifactStmt(name, type_, schema) => IsName(name) && MaybeName(type_) && MaybeName(schema)
    case IfStmt(field, op, value, then_) =>
      IsName(field) && op in COMPARATORS && Normal(value) && forall i | 0 <= i < |then_| :: FineStmt(then_[i])
    case LetStmt(name, artifact) => IsName(name) && IsName(artifact)
    case ApprovalStmt(message) => MaybeLine(message)
    case MemoryStmt(scope) => scope in SCOPES
  }

  predicate FineBody(body: seq<Stmt>) {
    forall i | 0 <= i < |body| :: FineStmt(body[i])
  }

  predicate Fine(ir: IR) {
    && AllNames(ir.imports) && AllNames(ir.tools) && AllNames(ir.capabilities)
    && MaybeName(ir.provider) && (ir.memory.Some? ==> ir.memory.value in SCOPES)
    && (forall i | 0 <= i < |ir.agents| :: FineAgent(ir.agents[i]))
    && FinePolicy(ir.policy)
    && (ir.workflow.Some? ==> IsName(ir.workflow.value.name) && FineBody(ir.workflow.value.body))
  }

  // ---------------------------------------------------------------- the token stream

  /** What the lexer guarantees of a token's text. */
  predicate WellToken(kind: Kind, text: string) {
    match kind
    case Ident => IsName(text)
    case Text => IsStringText(text)
    case Duration => IsDurationText(text)
    case Dollar => text != "" && text[0] == '$' && IsLiteral(text[1..])
    case Number => IsLiteral(text)
    case Comparator => text in COMPARATORS
    case Lt => text == "<"
    case Gt => text == ">"
    case LBrace => text == "{"
    case RBrace => text == "}"
    case Equals => text == "="
    case _ => true
  }

  /** Well-formed tokens with the end of the file last, and only there. */
  ghost predicate Stream(ts: seq<Token>) {
    && ts != [] && ts[|ts| - 1].kind == EOF
    && (forall i | 0 <= i < |ts| - 1 :: ts[i].kind != EOF)
    && forall i | 0 <= i < |ts| :: WellToken(ts[i].kind, ts[i].text)
  }

  /** The blocks that are made of fields. */
  datatype Section = AgentSection | PolicySection | ConsensusSection | ArtifactSection | ApprovalSection

  function FieldsOf(section: Section): set<string> {
    match section
    case AgentSection => {"provider", "model", "prompt", "capabilities", "tools"}
    case PolicySection => {"max_cost", "max_parallel", "timeout", "approval"}
    case ConsensusSection => {"strategy", "mode", "confidence"}
    case ArtifactSection => {"type", "schema"}
    case ApprovalSection => {"message"}
  }

  datatype Problem =
    | ExpectedKind(kind: Kind) | ExpectedWord(word: string)
    | NotTopLevel | SecondWorkflow | NoWorkflow
    | UnknownField(section: Section) | UnknownScope | UnknownStrategy | UnknownMode | BadConfidence | NoStrategy
    | TooFewMembers | NotAComparator | NotAStatement

  /** A syntax error, at the token the error message points to. */
  datatype Fail = Fail(problem: Problem, at: nat)

  datatype Parsed<+T> = Parsed(value: T, next: nat)

  type Parse<+T> = Result<Parsed<T>, Fail>

  ghost predicate At(ts: seq<Token>, pos: nat) {
    Stream(ts) && pos < |ts|
  }

  /** The word just before `at` is the one complained about. */
  predicate WordBefore(ts: seq<Token>, at: nat) {
    0 < at < |ts| && ts[at - 1].kind == Ident
  }

  /**
   Where an error message points.  Unknown words are reported one token too late: the parser has moved
   past the word when it looks at it.  Every other error points at the token that does not fit.
   */
  predicate Blames(ts: seq<Token>, f: Fail) {
    && f.at < |ts|
    && match f.problem
       case ExpectedKind(kind) => ts[f.at].kind != kind
       case ExpectedWord(word) => ts[f.at].kind == Ident && ts[f.at].text != word
       case NotTopLevel => ts[f.at].kind != Ident || ts[f.at].text !in TOP_LEVEL
       case SecondWorkflow => ts[f.at].kind == Ident && ts[f.at].text == "workflow"
       case NoWorkflow => ts[f.at].kind == EOF
       case NotAComparator => ts[f.at].kind != Comparator && ts[f.at].kind != Lt && ts[f.at].kind != Gt
       case NotAStatement => ts[f.at].kind != Ident
       case UnknownField(section) => WordBefore(ts, f.at) && ts[f.at - 1].text !in FieldsOf(section)
       case UnknownScope => WordBefore(ts, f.at) && ts[f.at - 1].text !in SCOPES
       case UnknownStrategy => WordBefore(ts, f.at) && ts[f.at - 1].text !in STRATEGIES
       case UnknownMode => WordBefore(ts, f.at) && ts[f.at - 1].text !in MODES
       case BadConfidence => WordBefore(ts, f.at) && ts[f.at - 1].text != "true" && ts[f.at - 1].text != "false"
       case NoStrategy => 0 < f.at && ts[f.at - 1].kind == RBrace
       case TooFewMembers => 0 < f.at && ts[f.at - 1].kind == RBrace
  }

  /** A production that succeeds has consumed tokens, and not the last; one that fails says where. */
  predicate Consumes<T>(ts: seq<Token>, pos: nat, r: Parse<T>) {
    match r
    case Success(parsed) => pos < parsed.next < |ts|
    case Failure(f) => Blames(ts, f)
  }

  function Expect(ts: seq<Token>, pos: nat, kind: Kind): (r: Parse<string>)
    requires At(ts, pos) && kind != EOF
    ensures Consumes(ts, pos, r) && (r.Success? ==> WellToken(kind, r.value.value))
    ensures r.Success? ==> r.value.next == pos + 1 && ts[pos].kind == kind && ts[pos].text == r.value.value
  {
    if ts[pos].kind != kind then Failure(Fail(ExpectedKind(kind), pos)) else Success(Parsed(ts[pos].text, pos + 1))
  }

  function ExpectWord(ts: seq<Token>, pos: nat, word: string): (r: Parse<string>)
    requires At(ts, pos)
    ensures Consumes(ts, pos, r)
  {
    if ts[pos].kind != Ident then Failure(Fail(ExpectedKind(Ident), pos))
    else if ts[pos].text != word then Failure(Fail(ExpectedWord(word), pos))
    else Success(Parsed(word, pos + 1))
  }

  predicate AtWord(ts: seq<Token>, pos: nat, word: string)
    requires pos < |ts|
  {
    ts[pos].kind == Ident && ts[pos].text == word
  }

  /** word name { */
  function Opening(ts: seq<Token>, pos: nat, word: string): (r: Parse<string>)
    requires At(ts, pos)
    ensures Consumes(ts, pos, r) && (r.Success? ==> IsName(r.value.value))
  {
    var w :- ExpectWord(ts, pos, word);
    var name :- Expect(ts, w.next, Ident);
    var open :- Expect(ts, name.next, LBrace);
    Success(Parsed(name.value, open.next))
  }

  /** word { */
  function Braces(ts: seq<Token>, pos: nat, word: string): (r: Parse<string>)
    requires At(ts, pos)
    ensures Consumes(ts, pos, r)
  {
    var w :- ExpectWord(ts, pos, word);
    Expect(ts, w.next, LBrace)
  }

  // ---------------------------------------------------------------- names up to a brace

  function NamesFrom(ts: seq<Token>, pos: nat, acc: seq<string>): (r: Parse<seq<string>>)
    requires At(ts, pos)
    ensures r.Failure? ==> Blames(ts, r.error)
    ensures r.Success? ==> pos <= r.value.next < |ts|
    ensures r.Success? && AllNames(acc) ==> AllNames(r.value.value)
    decreases |ts| - pos
  {
    if ts[pos].kind == RBrace then Success(Parsed(acc, pos))
    else
      var name :- Expect(ts, pos, Ident);
      NamesFrom(ts, name.next, acc + [name.value])
  }

  function NameBlock(ts: seq<Token>, pos: nat): (r: Parse<seq<string>>)
    requires At(ts, pos)
    ensures Consumes(ts, pos, r) && (r.Success? ==> AllNames(r.value.value))
    ensures r.Success? ==> ts[r.value.next - 1].kind == RBrace
  {
    var open :- Expect(ts, pos, LBrace);
    var names :- NamesFrom(ts, open.next, []);
    var close :- Expect(ts, names.next, RBrace);
    Success(Parsed(names.value, close.next))
  }

  // ---------------------------------------------------------------- agents

  function AgentField(ts: seq<Token>, pos: nat, acc: AgentIR): (r: Parse<AgentIR>)
    requires At(ts, pos)
    ensures Consumes(ts, pos, r) && (r.Success? && FineAgent(acc) ==> FineAgent(r.value.value))
  {
    var field :- Expect(ts, pos, Ident);
    if field.value == "provider" then
      var v :- Expect(ts, field.next, Ident); Success(Parsed(acc.(provider := Some(v.value)), v.next))
    else if field.value == "model" then
      var v :- Expect(ts, field.next, Ident); Success(Parsed(acc.(model := Some(v.value)), v.next))
    else if field.value == "prompt" then
      var v :- Expect(ts, field.next, Text);
      UnquoteNewlines(v.value);
      Success(Parsed(acc.(prompt := Some(Unquote(v.value))), v.next))
    else if field.value == "capabilities" then
      var v :- NameBlock(ts, field.next); Success(Parsed(acc.(capabilities := v.value), v.next))
    else if field.value == "tools" then
      var v :- NameBlock(ts, field.next); Success(Parsed(acc.(tools := v.value), v.next))
    else Failure(Fail(UnknownField(AgentSection), field.next))
  }

  function AgentFields(ts: seq<Token>, pos: nat, acc: AgentIR): (r: Parse<AgentIR>)
    requires At(ts, pos)
    ensures r.Failure? ==> Blames(ts, r.error)
    ensures r.Success? ==> pos <= r.value.next < |ts| && (FineAgent(acc) ==> FineAgent(r.value.value))
    decreases |ts| - pos
  {
    if ts[pos].kind == RBrace then Success(Parsed(acc, pos))
    else
      var more :- AgentField(ts, pos, acc);
      AgentFields(ts, more.next, more.value)
  }

  function NewAgent(name: string): AgentIR {
    AgentIR(name, None, None, [], [], None)
  }

  function Agent(ts: seq<Token>, pos: nat): (r: Parse<AgentIR>)
    requires At(ts, pos)
    ensures Consumes(ts, pos, r) && (r.Success? ==> FineAgent(r.value.value))
  {
    var name :- Opening(ts, pos, "agent");
    var agent :- AgentFields(ts, name.next, NewAgent(name.value));
    var close :- Expect(ts, agent.next, RBrace);
    Success(Parsed(agent.value, close.next))
  }

  // ---------------------------------------------------------------- policies

  function PolicyField(ts: seq<Token>, pos: nat, acc: PolicyIR): (r: Parse<PolicyIR>)
    requires At(ts, pos)
    ensures Consumes(ts, pos, r) && (r.Success? && FinePolicy(acc) ==> FinePolicy(r.value.value))
  {
    var field :- Expect(ts, pos, Ident);
    if field.value == "max_cost" then
      var v :- Expect(ts, field.next, Dollar); Success(Parsed(acc.(maxCost := Some(ParseDecimal(v.value[1..]))), v.next))
    else if field.value == "max_parallel" then
      var v :- Expect(ts, field.next, Number); Success(Parsed(acc.(maxParallel := Some(Truncate(ParseDecimal(v.value)))), v.next))
    else if field.value == "timeout" then
      var v :- Expect(ts, field.next, Duration); Success(Parsed(acc.(maxRuntime := Some(ParseDuration(v.value))), v.next))
    else if field.value == "approval" then
      var v :- Expect(ts, field.next, Ident); Success(Parsed(acc.(approvalFor := acc.approvalFor + [v.value]), v.next))
    else Failure(Fail(UnknownField(PolicySection), field.next))
  }

  function PolicyFields(ts: seq<Token>, pos: nat, acc: PolicyIR): (r: Parse<PolicyIR>)
    requires At(ts, pos)
    ensures r.Failure? ==> Blames(ts, r.error)
    ensures r.Success? ==> pos <= r.value.next < |ts| && (FinePolicy(acc) ==> FinePolicy(r.value.value))
    decreases |ts| - pos
  {
    if ts[pos].kind == RBrace then Success(Parsed(acc, pos))
    else
      var more :- PolicyField(ts, pos, acc);
      PolicyFields(ts, more.next, more.value)
  }

  function Policy(ts: seq<Token>, pos: nat): (r: Parse<PolicyIR>)
    requires At(ts, pos)
    ensures Consumes(ts, pos, r) && (r.Success? ==> FinePolicy(r.value.value))
  {
    var open :- Braces(ts, pos, "policy");
    var policy :- PolicyFields(ts, open.next, NO_POLICY);
    var close :- Expect(ts, policy.next, RBrace);
    Success(Parsed(policy.value, close.next))
  }

  // ---------------------------------------------------------------- statements without a body

  function Parallel(ts: seq<Token>, pos: nat): (r: Parse<Stmt>)
    requires At(ts, pos)
    ensures Consumes(ts, pos, r) && (r.Success? ==> FineStmt(r.value.value))
  {
    var word :- ExpectWord(ts, pos, "parallel");
    var members :- NameBlock(ts, word.next);
    if |members.value| < 2 then Failure(Fail(TooFewMembers, members.next))
    else Success(Parsed(ParallelStmt(members.value), members.next))
  }

  /** The fields of a consensus block; the strategy may still be missing. */
  datatype Choice = Choice(strategy: Option<string>, mode: Option<string>, confidence: bool)

  predicate FineChoice(c: Choice) {
    (c.strategy.Some? ==> c.strategy.value in STRATEGIES) && (c.mode.Some? ==> c.mode.value in MODES)
  }

  function ChoiceField(ts: seq<Token>, pos: nat, acc: Choice): (r: Parse<Choice>)
    requires At(ts, pos)
    ensures Consumes(ts, pos, r) && (r.Success? && FineChoice(acc) ==> FineChoice(r.value.value))
  {
    var field :- Expect(ts, pos, Ident);
    if field.value == "strategy" then
      var v :- Expect(ts, field.next, Ident);
      if v.value !in STRATEGIES then Failure(Fail(UnknownStrategy, v.next))
      else Success(Parsed(acc.(strategy := Some(v.value)), v.next))
    else if field.value == "mode" then
      var v :- Expect(ts, field.next, Ident);
      if v.value !in MODES then Failure(Fail(UnknownMode, v.next))
      else Success(Parsed(acc.(mode := Some(v.value)), v.next))
    else if field.value == "confidence" then
      var v :- Expect(ts, field.next, Ident);
      if v.value != "true" && v.value != "false" then Failure(Fail(BadConfidence, v.next))
      else Success(Parsed(acc.(confidence := v.value == "true"), v.next))
    else Failure(Fail(UnknownField(ConsensusSection), field.next))
  }

  function ChoiceFields(ts: seq<Token>, pos: nat, acc: Choice): (r: Parse<Choice>)
    requires At(ts, pos)
    ensures r.Failure? ==> Blames(ts, r.error)
    ensures r.Success? ==> pos <= r.value.next < |ts| && (FineChoice(acc) ==> FineChoice(r.value.value))
    decreases |ts| - pos
  {
    if ts[pos].kind == RBrace then Success(Parsed(acc, pos))
    else
      var more :- ChoiceField(ts, pos, acc);
      ChoiceFields(ts, more.next, more.value)
  }

  function Consensus(ts: seq<Token>, pos: nat): (r: Parse<Stmt>)
    requires At(ts, pos)
    ensures Consumes(ts, pos, r) && (r.Success? ==> FineStmt(r.value.value))
  {
    var word :- ExpectWord(ts, pos, "consensus");
    if ts[word.next].kind == LBrace then
      var choice :- ChoiceFields(ts, word.next + 1, Choice(None, None, false));
      var close :- Expect(ts, choice.next, RBrace);
      if choice.value.strategy.None? then Failure(Fail(NoStrategy, close.next))
      else Success(Parsed(ConsensusStmt(choice.value.strategy.value, choice.value.mode, choice.value.confidence), close.next))
    else
      var v :- Expect(ts, word.next, Ident);
      if v.value !in STRATEGIES then Failure(Fail(UnknownStrategy, v.next))
      else Success(Parsed(ConsensusStmt(v.value, None, false), v.next))
  }

  function ArtifactField(ts: seq<Token>, pos: nat, acc: Stmt): (r: Parse<Stmt>)
    requires At(ts, pos) && acc.ArtifactStmt?
    ensures Consumes(ts, pos, r) && (r.Success? ==> r.value.value.ArtifactStmt? && (FineStmt(acc) ==> FineStmt(r.value.value)))
  {
    var field :- Expect(ts, pos, Ident);
    if field.value == "type" then
      var v :- Expect(ts, field.next, Ident); Success(Parsed(acc.(type_ := Some(v.value)), v.next))
    else if field.value == "schema" then
      var v :- Expect(ts, field.next, Ident); Success(Parsed(acc.(schema := Some(v.value)), v.next))
    else Failure(Fail(UnknownField(ArtifactSection), field.next))
  }

  function ArtifactFields(ts: seq<Token>, pos: nat, acc: Stmt): (r: Parse<Stmt>)
    requires At(ts, pos) && acc.ArtifactStmt?
    ensures r.Failure? ==> Blames(ts, r.error)
    ensures r.Success? ==> pos <= r.value.next < |ts| && (FineStmt(acc) ==> FineStmt(r.value.value))
    decreases |ts| - pos
  {
    if ts[pos].kind == RBrace then Success(Parsed(acc, pos))
    else
      var more :- ArtifactField(ts, pos, acc);
      ArtifactFields(ts, more.next, more.value)
  }

  function Artifact(ts: seq<Token>, pos: nat): (r: Parse<Stmt>)
    requires At(ts, pos)
    ensures Consumes(ts, pos, r) && (r.Success? ==> FineStmt(r.value.value))
  {
    var word :- ExpectWord(ts, pos, "artifact");
    var name :- Expect(ts, word.next, Ident);
    var node := ArtifactStmt(name.value, None, None);
    if ts[name.next].kind == LBrace then
      var full :- ArtifactFields(ts, name.next + 1, node);
      var close :- Expect(ts, full.next, RBrace);
      Success(Parsed(full.value, close.next))
    else Success(Parsed(node, name.next))
  }

  function Let(ts: seq<Token>, pos: nat): (r: Parse<Stmt>)
    requires At(ts, pos)
    ensures Consumes(ts, pos, r) && (r.Success? ==> FineStmt(r.value.value))
  {
    var word :- ExpectWord(ts, pos, "let");
    var name :- Expect(ts, word.next, Ident);
    var equals :- Expect(ts, name.next, Equals);
    var artifact :- ExpectWord(ts, equals.next, "artifact");
    var target :- Expect(ts, artifact.next, Ident);
    Success(Parsed(LetStmt(name.value, target.value), target.next))
  }

  function ApprovalFields(ts: seq<Token>, pos: nat, acc: Option<string>): (r: Parse<Option<string>>)
    requires At(ts, pos)
    ensures r.Failure? ==> Blames(ts, r.error)
    ensures r.Success? ==> pos <= r.value.next < |ts| && (MaybeLine(acc) ==> MaybeLine(r.value.value))
    decreases |ts| - pos
  {
    if ts[pos].kind == RBrace then Success(Parsed(acc, pos))
    else
      var field :- Expect(ts, pos, Ident);
      if field.value == "message" then
        var v :- Expect(ts, field.next, Text);
        UnquoteNewlines(v.value);
        ApprovalFields(ts, v.next, Some(Unquote(v.value)))
      else Failure(Fail(UnknownField(ApprovalSection), field.next))
  }

  function Approval(ts: seq<Token>, pos: nat): (r: Parse<Stmt>)
    requires At(ts, pos)
    ensures Consumes(ts, pos, r) && (r.Success? ==> FineStmt(r.value.value))
  {
    var open :- Braces(ts, pos, "approval");
    var message :- ApprovalFields(ts, open.next, None);
    var close :- Expect(ts, message.next, RBrace);
    Success(Parsed(ApprovalStmt(message.value), close.next))
  }

  /** A scope name; the error message points at the token after an unknown one. */
  function Scope(ts: seq<Token>, pos: nat): (r: Parse<string>)
    requires At(ts, pos)
    ensures Consumes(ts, pos, r) && (r.Success? ==> r.value.value in SCOPES)
  {
    var scope :- Expect(ts, pos, Ident);
    if scope.value !in SCOPES then Failure(Fail(UnknownScope, scope.next)) else Success(scope)
  }

  function Operator(ts: seq<Token>, pos: nat): (r: Parse<string>)
    requires At(ts, pos)
    ensures Consumes(ts, pos, r) && (r.Success? ==> r.value.value in COMPARATORS)
  {
    if ts[pos].kind == Comparator || ts[pos].kind == Lt || ts[pos].kind == Gt then Success(Parsed(ts[pos].text, pos + 1))
    else Failure(Fail(NotAComparator, pos))
  }

  /** What an `if` compares. */
  datatype Test = Test(field: string, op: string, value: Decimal)

  predicate FineTest(t: Test) {
    IsName(t.field) && t.op in COMPARATORS && Normal(t.value)
  }

  /** if field op number { */
  function Condition(ts: seq<Token>, pos: nat): (r: Parse<Test>)
    requires At(ts, pos)
    ensures Consumes(ts, pos, r) && (r.Success? ==> FineTest(r.value.value))
  {
    var word :- ExpectWord(ts, pos, "if");
    var field :- Expect(ts, word.next, Ident);
    var op :- Operator(ts, field.next);
    var value :- Expect(ts, op.next, Number);
    var open :- Expect(ts, value.next, LBrace);
    Success(Parsed(Test(field.value, op.value, ParseDecimal(value.value)), open.next))
  }

  // ---------------------------------------------------------------- bodies

  function BodyFrom(ts: seq<Token>, pos: nat, acc: seq<Stmt>): (r: Parse<seq<Stmt>>)
    requires At(ts, pos)
    ensures r.Failure? ==> Blames(ts, r.error)
    ensures r.Success? ==> pos <= r.value.next < |ts| && (FineBody(acc) ==> FineBody(r.value.value))
    decreases |ts| - pos, 2
  {
    if ts[pos].kind == RBrace then Success(Parsed(acc, pos))
    else
      var stmt :- Statement(ts, pos);
      BodyFrom(ts, stmt.next, acc + [stmt.value])
  }

  function If(ts: seq<Token>, pos: nat): (r: Parse<Stmt>)
    requires At(ts, pos)
    ensures Consumes(ts, pos, r) && (r.Success? ==> FineStmt(r.value.value))
    decreases |ts| - pos, 0
  {
    var test :- Condition(ts, pos);
    var body :- BodyFrom(ts, test.next, []);
    var close :- Expect(ts, body.next, RBrace);
    Success(Parsed(IfStmt(test.value.field, test.value.op, test.value.value, body.value), close.next))
  }

  function Statement(ts: seq<Token>, pos: nat): (r: Parse<Stmt>)
    requires At(ts, pos)
    ensures Consumes(ts, pos, r) && (r.Success? ==> FineStmt(r.value.value))
    decreases |ts| - pos, 1
  {
    if AtWord(ts, pos, "step") then
      var ref :- Expect(ts, pos + 1, Ident); Success(Parsed(StepStmt(ref.value), ref.next))
    else if AtWord(ts, pos, "parallel") then Parallel(ts, pos)
    else if AtWord(ts, pos, "consensus") then Consensus(ts, pos)
    else if AtWord(ts, pos, "artifact") then Artifact(ts, pos)
    else if AtWord(ts, pos, "if") then If(ts, pos)
    else if AtWord(ts, pos, "let") then Let(ts, pos)
    else if AtWord(ts, pos, "approval") then Approval(ts, pos)
    else if AtWord(ts, pos, "memory") then
      var scope :- Scope(ts, pos + 1); Success(Parsed(MemoryStmt(scope.value), scope.next))
    else if ts[pos].kind == Ident then Success(Parsed(RefStmt(ts[pos].text), pos + 1))
    else Failure(Fail(NotAStatement, pos))
  }

  // ---------------------------------------------------------------- the file

  function Workflow(ts: seq<Token>, pos: nat): (r: Parse<WorkflowIR>)
    requires At(ts, pos)
    ensures Consumes(ts, pos, r) && (r.Success? ==> IsName(r.value.value.name) && FineBody(r.value.value.body))
  {
    var name :- Opening(ts, pos, "workflow");
    var body :- BodyFrom(ts, name.next, []);
    var close :- Expect(ts, body.next, RBrace);
    Success(Parsed(WorkflowIR(name.value, body.value), close.next))
  }

  /** A declaration that is a word and a name. */
  function NameDeclaration(ts: seq<Token>, pos: nat, acc: IR): (r: Parse<IR>)
    requires At(ts, pos)
    ensures Consumes(ts, pos, r) && (r.Success? && Fine(acc) ==> Fine(r.value.value))
  {
    var word :- Expect(ts, pos, Ident);
    var v :- Expect(ts, word.next, Ident);
    var ir := if word.value == "import" then acc.(imports := acc.imports + [v.value])
              else if word.value == "tool" then acc.(tools := acc.tools + [v.value])
              else if word.value == "capability" then acc.(capabilities := acc.capabilities + [v.value])
              else acc.(provider := Some(v.value));
    Success(Parsed(ir, v.next))
  }

  /** One top-level declaration. */
  function Declaration(ts: seq<Token>, pos: nat, acc: IR): (r: Parse<IR>)
    requires At(ts, pos)
    ensures Consumes(ts, pos, r) && (r.Success? && Fine(acc) ==> Fine(r.value.value))
  {
    if ts[pos].kind != Ident || ts[pos].text !in TOP_LEVEL then Failure(Fail(NotTopLevel, pos))
    else if ts[pos].text == "memory" then
      var v :- Scope(ts, pos + 1); Success(Parsed(acc.(memory := Some(v.value)), v.next))
    else if ts[pos].text == "agent" then
      var v :- Agent(ts, pos); Success(Parsed(acc.(agents := acc.agents + [v.value]), v.next))
    else if ts[pos].text == "policy" then
      var v :- Policy(ts, pos); Success(Parsed(acc.(policy := v.value), v.next))
    else if ts[pos].text == "workflow" then
      if acc.workflow.Some? then Failure(Fail(SecondWorkflow, pos))
      else
        var v :- Workflow(ts, pos); Success(Parsed(acc.(workflow := Some(v.value)), v.next))
    else NameDeclaration(ts, pos, acc)
  }

  /** Declarations up to the end of the file; all tokens are consumed. */
  function Declarations(ts: seq<Token>, pos: nat, acc: IR): (r: Parse<IR>)
    requires At(ts, pos)
    ensures r.Failure? ==> Blames(ts, r.error)
    ensures r.Success? ==> r.value.next == |ts| - 1 && (Fine(acc) ==> Fine(r.value.value))
    ensures r.Success? ==> r.value.value.workflow.Some?
    decreases |ts| - pos
  {
    if ts[pos].kind == EOF then
      if acc.workflow.None? then Failure(Fail(NoWorkflow, pos)) else Success(Parsed(acc, pos))
    else
      var more :- Declaration(ts, pos, acc);
      Declarations(ts, more.next, more.value)
  }

  function Program(ts: seq<Token>): (r: Parse<IR>)
    requires Stream(ts)
    ensures r.Success? ==> Fine(r.value.value) && r.value.value.workflow.Some? && r.value.next == |ts| - 1
    ensures r.Failure? ==> Blames(ts, r.error)
  {
    Declarations(ts, 0, EMPTY)
  }
}
