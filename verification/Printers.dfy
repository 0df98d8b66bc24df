/** AirLang source text for a representation: its tokens, separated by single spaces. */
module Printers {
  import opened Wrappers
  import opened Numerals
  import opened Lexers
  import opened Tokenizers
  import opened Decimals
  import opened Quoting
  import opened Grammars

  /** A token without its place. */
  datatype Lexeme = Lexeme(kind: Kind, text: string)

  function W(word: string): Lexeme { Lexeme(Ident, word) }

  const OPEN := Lexeme(LBrace, "{")
  const CLOSE := Lexeme(RBrace, "}")

  function Names(names: seq<string>): (ls: seq<Lexeme>)
    ensures |ls| == |names|
  {
    seq(|names|, i requires 0 <= i < |names| => W(names[i]))
  }

  function Block(names: seq<string>): seq<Lexeme> {
    [OPEN] + Names(names) + [CLOSE]
  }

  /** A field that may be missing: its word and its value. */
  function MaybeField(word: string, value: Option<Lexeme>): seq<Lexeme> {
    if value.Some? then [W(word), value.value] else []
  }

  function Named(name: Option<string>): Option<Lexeme> {
    if name.Some? then Some(W(name.value)) else None
  }

  function Quoted(text: Option<string>): Option<Lexeme> {
    if text.Some? then Some(Lexeme(Text, Quote(text.value))) else None
  }

  function Dollars(d: Option<Decimal>): Option<Lexeme> {
    if d.Some? then Some(Lexeme(Dollar, "$" + PrintDecimal(d.value))) else None
  }

  function Counted(n: Option<nat>): Option<Lexeme> {
    if n.Some? then Some(Lexeme(Number, Numerals.Digits(n.value))) else None
  }

  function Timed(d: Option<Decimal>): Option<Lexeme> {
    if d.Some? then Some(Lexeme(Duration, PrintDuration(d.value))) else None
  }

  function PrintAgent(a: AgentIR): seq<Lexeme> {
    [W("agent"), W(a.name), OPEN] + (AgentFieldsOf(a) + [CLOSE])
  }

  function AgentFieldsOf(a: AgentIR): seq<Lexeme> {
    MaybeField("provider", Named(a.provider)) + (MaybeField("model", Named(a.model))
    + (MaybeField("prompt", Quoted(a.prompt)) + ([W("capabilities")] + Block(a.capabilities) + ([W("tools")] + Block(a.tools)))))
  }

  function Approvals(names: seq<string>): seq<Lexeme> {
    if names == [] then [] else [W("approval"), W(names[0])] + Approvals(names[1..])
  }

  function PolicyFieldsOf(p: PolicyIR): seq<Lexeme> {
    MaybeField("max_cost", Dollars(p.maxCost)) + (MaybeField("max_parallel", Counted(p.maxParallel))
    + (MaybeField("timeout", Timed(p.maxRuntime)) + Approvals(p.approvalFor)))
  }

  function PrintPolicy(p: PolicyIR): seq<Lexeme> {
    [W("policy"), OPEN] + (PolicyFieldsOf(p) + [CLOSE])
  }

  function OperatorLexeme(op: string): Lexeme {
    Lexeme(if op == "<" then Lt else if op == ">" then Gt else Comparator, op)
  }

  function ChoiceFieldsOf(strategy: string, mode: Option<string>, confidence: bool): seq<Lexeme> {
    [W("strategy"), W(strategy)] + (MaybeField("mode", Named(mode)) + MaybeField("confidence", if confidence then Some(W("true")) else None))
  }

  function ArtifactFieldsOf(type_: Option<string>, schema: Option<string>): seq<Lexeme> {
    MaybeField("type", Named(type_)) + MaybeField("schema", Named(schema))
  }

  function PrintStmt(s: Stmt): (ls: seq<Lexeme>)
    ensures ls != [] && ls[0].kind == Ident
    decreases s
  {
    match s
    case StepStmt(ref) => [W("step"), W(ref)]
    case RefStmt(name) => [W(name)]
    case ParallelStmt(members) => [W("parallel")] + Block(members)
    case ConsensusStmt(strategy, mode, confidence) =>
      [W("consensus"), OPEN] + (ChoiceFieldsOf(strategy, mode, confidence) + [CLOSE])
    case ArtifactStmt(name, type_, schema) => [W("artifact"), W(name), OPEN] + (ArtifactFieldsOf(type_, schema) + [CLOSE])
    case IfStmt(field, op, value, then_) =>
      [W("if"), W(field), OperatorLexeme(op), Lexeme(Number, PrintDecimal(value)), OPEN] + (PrintBody(then_) + [CLOSE])
    case LetStmt(name, artifact) => [W("let"), W(name), Lexeme(Equals, "="), W("artifact"), W(artifact)]
    case ApprovalStmt(message) => [W("approval"), OPEN] + (MaybeField("message", Quoted(message)) + [CLOSE])
    case MemoryStmt(scope) => [W("memory"), W(scope)]
  }

  function PrintBody(body: seq<Stmt>): seq<Lexeme>
    decreases body
  {
    if body == [] then [] else PrintStmt(body[0]) + PrintBody(body[1..])
  }

  function PrintWorkflow(w: WorkflowIR): seq<Lexeme> {
    [W("workflow"), W(w.name), OPEN] + (PrintBody(w.body) + [CLOSE])
  }

  function Declared(word: string, names: seq<string>): seq<Lexeme> {
    if names == [] then [] else [W(word), W(names[0])] + Declared(word, names[1..])
  }

  function PrintAgents(agents: seq<AgentIR>): seq<Lexeme> {
    if agents == [] then [] else PrintAgent(agents[0]) + PrintAgents(agents[1..])
  }

  function PrintIR(ir: IR): seq<Lexeme>
    requires ir.workflow.Some?
  {
    Declared("import", ir.imports) + (Declared("tool", ir.tools) + (Declared("capability", ir.capabilities)
    + (MaybeField("provider", Named(ir.provider)) + (MaybeField("memory", Named(ir.memory))
    + (PrintAgents(ir.agents) + (PrintPolicy(ir.policy) + PrintWorkflow(ir.workflow.value)))))))
  }

  function Render(ls: seq<Lexeme>): string {
    if ls == [] then "" else ls[0].text + " " + Render(ls[1..])
  }

  /** The source text of a representation. */
  function Source(ir: IR): string
    requires ir.workflow.Some?
  {
    Render(PrintIR(ir))
  }
}
