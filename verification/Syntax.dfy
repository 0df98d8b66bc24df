/**
 AirLang's concrete syntax: everything a file may be written as, and what it means.  Fields may come in any
 order and be repeated, blocks may be left out, declarations may be interleaved; the printer writes one
 of these forms only.  A token list is a program exactly when it spells such a file.
 */
module Syntax {
  import opened Wrappers
  import opened Lexers
  import opened Tokenizers
  import opened Decimals
  import opened Quoting
  import opened Grammars
  import opened Printers
  import opened RoundTrips

  // ---------------------------------------------------------------- what can be written

  datatype AgentItem =
    | ProviderItem(name: string) | ModelItem(name: string) | PromptItem(text: string)
    | CapabilitiesItem(names: seq<string>) | ToolsItem(names: seq<string>)

  datatype PolicyItem = CostItem(text: string) | WidthItem(text: string) | TimeItem(text: string) | ApprovalItem(name: string)

  datatype VoteItem = StrategyItem(word: string) | ModeItem(word: string) | ConfidenceItem(word: string)

  datatype ArtifactItem = TypeItem(name: string) | SchemaItem(name: string)

  datatype Node =
    | StepNode(name: string)
    | RefNode(name: string)
    | ParallelNode(names: seq<string>)
    | BareVote(word: string)
    | VoteBlock(votes: seq<VoteItem>)
    | BareArtifact(name: string)
    | ArtifactBlock(name: string, artifacts: seq<ArtifactItem>)
    | IfNode(field: string, op: Lexeme, number: string, body: seq<Node>)
    | LetNode(name: string, artifact: string)
    | ApprovalNode(messages: seq<string>)
    | MemoryNode(scope: string)

  datatype Decl =
    | ImportDecl(name: string) | ToolDecl(name: string) | CapabilityDecl(name: string) | ProviderDecl(name: string)
    | MemoryDecl(scope: string)
    | AgentDecl(name: string, fields: seq<AgentItem>)
    | PolicyDecl(limits: seq<PolicyItem>)
    | WorkflowDecl(name: string, body: seq<Node>)

  // ---------------------------------------------------------------- how it is spelled

  function SpellAll<T>(items: seq<T>, spell: T -> seq<Lexeme>): seq<Lexeme> {
    if items == [] then [] else spell(items[0]) + SpellAll(items[1..], spell)
  }

  function SpellAgentItem(i: AgentItem): seq<Lexeme> {
    match i
    case ProviderItem(name) => [W("provider"), W(name)]
    case ModelItem(name) => [W("model"), W(name)]
    case PromptItem(text) => [W("prompt"), Lexeme(Text, text)]
    case CapabilitiesItem(names) => [W("capabilities")] + Block(names)
    case ToolsItem(names) => [W("tools")] + Block(names)
  }

  function SpellPolicyItem(i: PolicyItem): seq<Lexeme> {
    match i
    case CostItem(text) => [W("max_cost"), Lexeme(Dollar, text)]
    case WidthItem(text) => [W("max_parallel"), Lexeme(Number, text)]
    case TimeItem(text) => [W("timeout"), Lexeme(Duration, text)]
    case ApprovalItem(name) => [W("approval"), W(name)]
  }

  function SpellVoteItem(i: VoteItem): seq<Lexeme> {
    match i
    case StrategyItem(word) => [W("strategy"), W(word)]
    case ModeItem(word) => [W("mode"), W(word)]
    case ConfidenceItem(word) => [W("confidence"), W(word)]
  }

  function SpellArtifactItem(i: ArtifactItem): seq<Lexeme> {
    match i
    case TypeItem(name) => [W("type"), W(name)]
    case SchemaItem(name) => [W("schema"), W(name)]
  }

  function SpellMessage(text: string): seq<Lexeme> {
    [W("message"), Lexeme(Text, text)]
  }

  function SpellNode(n: Node): (ls: seq<Lexeme>)
    ensures ls != [] && ls[0].kind == Ident
    decreases n
  {
    match n
    case StepNode(name) => [W("step"), W(name)]
    case RefNode(name) => [W(name)]
    case ParallelNode(names) => [W("parallel")] + Block(names)
    case BareVote(word) => [W("consensus"), W(word)]
    case VoteBlock(items) => [W("consensus"), OPEN] + (SpellAll(items, SpellVoteItem) + [CLOSE])
    case BareArtifact(name) => [W("artifact"), W(name)]
    case ArtifactBlock(name, items) => [W("artifact"), W(name), OPEN] + (SpellAll(items, SpellArtifactItem) + [CLOSE])
    case IfNode(field, op, number, body) =>
      [W("if"), W(field), op, Lexeme(Number, number), OPEN] + (SpellBody(body) + [CLOSE])
    case LetNode(name, artifact) => [W("let"), W(name), Lexeme(Equals, "="), W("artifact"), W(artifact)]
    case ApprovalNode(messages) => [W("approval"), OPEN] + (SpellAll(messages, SpellMessage) + [CLOSE])
    case MemoryNode(scope) => [W("memory"), W(scope)]
  }

  function SpellBody(body: seq<Node>): seq<Lexeme>
    decreases body
  {
    if body == [] then [] else SpellNode(body[0]) + SpellBody(body[1..])
  }

  function SpellDecl(d: Decl): seq<Lexeme> {
    match d
    case ImportDecl(name) => [W("import"), W(name)]
    case ToolDecl(name) => [W("tool"), W(name)]
    case CapabilityDecl(name) => [W("capability"), W(name)]
    case ProviderDecl(name) => [W("provider"), W(name)]
    case MemoryDecl(scope) => [W("memory"), W(scope)]
    case AgentDecl(name, items) => [W("agent"), W(name), OPEN] + (SpellAll(items, SpellAgentItem) + [CLOSE])
    case PolicyDecl(items) => [W("policy"), OPEN] + (SpellAll(items, SpellPolicyItem) + [CLOSE])
    case WorkflowDecl(name, body) => [W("workflow"), W(name), OPEN] + (SpellBody(body) + [CLOSE])
  }

  // ---------------------------------------------------------------- what is allowed

  predicate LegalPolicyItem(i: PolicyItem) {
    match i
    case CostItem(text) => text != "" && IsLiteral(text[1..])
    case WidthItem(text) => IsLiteral(text)
    case TimeItem(text) => IsDurationText(text)
    case ApprovalItem(_) => true
  }

  predicate LegalVoteItem(i: VoteItem) {
    match i
    case StrategyItem(word) => word in {"majority", "unanimous", "judge"}
    case ModeItem(word) => word in {"select", "synthesize"}
    case ConfidenceItem(word) => word in {"true", "false"}
  }

  predicate LegalAgentItem(i: AgentItem) {
    i.PromptItem? ==> |i.text| >= 2
  }

  predicate LegalNode(n: Node) {
    match n
    case RefNode(name) => name !in {"step", "parallel", "consensus", "artifact", "if", "let", "approval", "memory"}
    case ParallelNode(names) => |names| >= 2
    case BareVote(word) => word in {"majority", "unanimous", "judge"}
    case VoteBlock(items) =>
      (forall k | 0 <= k < |items| :: LegalVoteItem(items[k])) && exists k :: 0 <= k < |items| && items[k].StrategyItem?
    case IfNode(_, op, number, body) =>
      op.kind in {Comparator, Lt, Gt} && IsLiteral(number) && forall k | 0 <= k < |body| :: LegalNode(body[k])
    case ApprovalNode(messages) => forall k | 0 <= k < |messages| :: |messages[k]| >= 2
    case MemoryNode(scope) => scope in {"session", "project", "temporary"}
    case _ => true
  }

  predicate LegalBody(body: seq<Node>) {
    forall k | 0 <= k < |body| :: LegalNode(body[k])
  }

  predicate LegalDecl(d: Decl) {
    match d
    case MemoryDecl(scope) => scope in {"session", "project", "temporary"}
    case AgentDecl(_, items) => forall k | 0 <= k < |items| :: LegalAgentItem(items[k])
    case PolicyDecl(items) => forall k | 0 <= k < |items| :: LegalPolicyItem(items[k])
    case WorkflowDecl(_, body) => LegalBody(body)
    case _ => true
  }

  /** Legal declarations in any order, exactly one of them a workflow. */
  predicate Legal(decls: seq<Decl>) {
    && (forall k | 0 <= k < |decls| :: LegalDecl(decls[k]))
    && (exists k :: 0 <= k < |decls| && decls[k].WorkflowDecl?)
    && forall j, k | 0 <= j < k < |decls| :: !(decls[j].WorkflowDecl? && decls[k].WorkflowDecl?)
  }

  // ---------------------------------------------------------------- what it means

  /** What the last item that says anything of it says. */
  function LastOf<T, U>(items: seq<T>, said: T -> Option<U>): Option<U> {
    if items == [] then None
    else if said(items[|items| - 1]).Some? then said(items[|items| - 1])
    else LastOf(items[..|items| - 1], said)
  }

  /** What all items say of it, in order. */
  function AllOf<T, U>(items: seq<T>, said: T -> Option<U>): seq<U> {
    if items == [] then []
    else AllOf(items[..|items| - 1], said) + if said(items[|items| - 1]).Some? then [said(items[|items| - 1]).value] else []
  }

  function Or<T>(v: Option<T>, otherwise: T): T {
    if v.Some? then v.value else otherwise
  }

  function ProviderIn(i: AgentItem): Option<string> { if i.ProviderItem? then Some(i.name) else None }
  function ModelIn(i: AgentItem): Option<string> { if i.ModelItem? then Some(i.name) else None }
  function PromptIn(i: AgentItem): Option<string> { if i.PromptItem? && |i.text| >= 2 then Some(Unquote(i.text)) else None }
  function CapabilitiesIn(i: AgentItem): Option<seq<string>> { if i.CapabilitiesItem? then Some(i.names) else None }
  function ToolsIn(i: AgentItem): Option<seq<string>> { if i.ToolsItem? then Some(i.names) else None }

  function AgentOf(name: string, items: seq<AgentItem>): AgentIR {
    AgentIR(name, LastOf(items, ProviderIn), LastOf(items, ModelIn),
            Or(LastOf(items, CapabilitiesIn), []), Or(LastOf(items, ToolsIn), []), LastOf(items, PromptIn))
  }

  function CostIn(i: PolicyItem): Option<Decimal> {
    if i.CostItem? && LegalPolicyItem(i) then Some(ParseDecimal(i.text[1..])) else None
  }

  function WidthIn(i: PolicyItem): Option<nat> {
    if i.WidthItem? && LegalPolicyItem(i) then Some(Truncate(ParseDecimal(i.text))) else None
  }

  function TimeIn(i: PolicyItem): Option<Decimal> {
    if i.TimeItem? && LegalPolicyItem(i) then Some(ParseDuration(i.text)) else None
  }

  function ApprovalIn(i: PolicyItem): Option<string> { if i.ApprovalItem? then Some(i.name) else None }

  function PolicyOf(items: seq<PolicyItem>): PolicyIR {
    PolicyIR(LastOf(items, CostIn), LastOf(items, WidthIn), LastOf(items, TimeIn), AllOf(items, ApprovalIn))
  }

  function StrategyIn(i: VoteItem): Option<string> { if i.StrategyItem? then Some(i.word) else None }
  function ModeIn(i: VoteItem): Option<string> { if i.ModeItem? then Some(i.word) else None }
  function ConfidenceIn(i: VoteItem): Option<bool> { if i.ConfidenceItem? then Some(i.word == "true") else None }

  function TypeIn(i: ArtifactItem): Option<string> { if i.TypeItem? then Some(i.name) else None }
  function SchemaIn(i: ArtifactItem): Option<string> { if i.SchemaItem? then Some(i.name) else None }

  function MessageIn(text: string): Option<string> { if |text| >= 2 then Some(Unquote(text)) else None }

  function MeansNode(n: Node): Stmt
    requires LegalNode(n)
  {
    match n
    case StepNode(name) => StepStmt(name)
    case RefNode(name) => RefStmt(name)
    case ParallelNode(names) => ParallelStmt(names)
    case BareVote(word) => ConsensusStmt(word, None, false)
    case VoteBlock(items) =>
      ConsensusStmt(Or(LastOf(items, StrategyIn), ""), LastOf(items, ModeIn), Or(LastOf(items, ConfidenceIn), false))
    case BareArtifact(name) => ArtifactStmt(name, None, None)
    case ArtifactBlock(name, items) => ArtifactStmt(name, LastOf(items, TypeIn), LastOf(items, SchemaIn))
    case IfNode(field, op, number, body) =>
      IfStmt(field, op.text, ParseDecimal(number), seq(|body|, k requires 0 <= k < |body| => MeansNode(body[k])))
    case LetNode(name, artifact) => LetStmt(name, artifact)
    case ApprovalNode(messages) => ApprovalStmt(LastOf(messages, MessageIn))
    case MemoryNode(scope) => MemoryStmt(scope)
  }

  function MeansBody(body: seq<Node>): seq<Stmt>
    requires LegalBody(body)
  {
    seq(|body|, k requires 0 <= k < |body| => MeansNode(body[k]))
  }

  function ImportIn(d: Decl): Option<string> { if d.ImportDecl? then Some(d.name) else None }
  function ToolIn(d: Decl): Option<string> { if d.ToolDecl? then Some(d.name) else None }
  function CapabilityIn(d: Decl): Option<string> { if d.CapabilityDecl? then Some(d.name) else None }
  function DefaultIn(d: Decl): Option<string> { if d.ProviderDecl? then Some(d.name) else None }
  function ScopeIn(d: Decl): Option<string> { if d.MemoryDecl? then Some(d.scope) else None }
  function AgentIn(d: Decl): Option<AgentIR> { if d.AgentDecl? then Some(AgentOf(d.name, d.fields)) else None }
  function PolicyIn(d: Decl): Option<PolicyIR> { if d.PolicyDecl? then Some(PolicyOf(d.limits)) else None }

  function WorkflowIn(d: Decl): Option<WorkflowIR> {
    if d.WorkflowDecl? && LegalBody(d.body) then Some(WorkflowIR(d.name, MeansBody(d.body))) else None
  }

  /** Lists collect in order, single values are the last one given. */
  function Means(decls: seq<Decl>): IR {
    IR(AllOf(decls, ImportIn), AllOf(decls, ToolIn), AllOf(decls, CapabilityIn), LastOf(decls, DefaultIn), LastOf(decls, ScopeIn),
       AllOf(decls, AgentIn), Or(LastOf(decls, PolicyIn), PolicyIR(None, None, None, [])), LastOf(decls, WorkflowIn))
  }

  // ---------------------------------------------------------------- lists of items

  lemma LastSnoc<T, U>(items: seq<T>, i: T, said: T -> Option<U>)
    ensures LastOf(items + [i], said) == if said(i).Some? then said(i) else LastOf(items, said)
    ensures AllOf(items + [i], said) == AllOf(items, said) + if said(i).Some? then [said(i).value] else []
  {
    assert (items + [i])[..|items|] == items;
  }

  lemma Rejoin<T>(done: seq<T>, items: seq<T>)
    requires items != []
    ensures done + [items[0]] + items[1..] == done + items
  {
  }

  lemma SpellsNothing(ts: seq<Token>, pos: nat)
    requires pos <= |ts|
    ensures Spells(ts, pos, [])
  {
  }

  /** Two spelled parts, one after the other. */
  lemma SpellsBoth(ts: seq<Token>, pos: nat, a: seq<Lexeme>, b: seq<Lexeme>)
    requires Spells(ts, pos, a) && Spells(ts, pos + |a|, b)
    ensures Spells(ts, pos, a + b)
  {
    forall k | 0 <= k < |a + b| ensures ts[pos + k].kind == (a + b)[k].kind && ts[pos + k].text == (a + b)[k].text {
      if k >= |a| { SpelledAt(ts, pos + |a|, b, k - |a|); }
    }
  }

  lemma SpellsTwo(ts: seq<Token>, pos: nat, a: Lexeme, b: Lexeme)
    requires Spells(ts, pos, [a, b])
    ensures pos + 2 <= |ts| && ts[pos].kind == a.kind && ts[pos].text == a.text && ts[pos + 1].kind == b.kind && ts[pos + 1].text == b.text
  {
    SpelledAt(ts, pos, [a, b], 0);
    SpelledAt(ts, pos, [a, b], 1);
  }

  /** A word and a token of the right kind are read one after the other. */
  lemma TwoRead(ts: seq<Token>, pos: nat, word: string, l: Lexeme)
    requires At(ts, pos) && Spells(ts, pos, [W(word), l]) && l.kind != EOF
    ensures At(ts, pos + 1) && At(ts, pos + 2) && ts[pos].kind == Ident && ts[pos].text == word && WellToken(l.kind, l.text)
    ensures Expect(ts, pos, Ident) == Success(Parsed(word, pos + 1)) && Expect(ts, pos + 1, l.kind) == Success(Parsed(l.text, pos + 2))
  {
    SpellsTwo(ts, pos, W(word), l);
  }

  lemma TwoSpelled(ts: seq<Token>, pos: nat, word: string, kind: Kind)
    requires At(ts, pos) && pos + 1 < |ts| && ts[pos].kind == Ident && ts[pos].text == word && ts[pos + 1].kind == kind
    ensures Spells(ts, pos, [W(word), Lexeme(kind, ts[pos + 1].text)])
  {
  }

  // ---------------------------------------------------------------- names up to a brace

  lemma {:induction false} NamesBack(ts: seq<Token>, pos: nat, acc: seq<string>) returns (names: seq<string>)
    requires At(ts, pos) && NamesFrom(ts, pos, acc).Success?
    ensures var r := NamesFrom(ts, pos, acc).value;
      r.value == acc + names && r.next == pos + |names| && Spells(ts, pos, Names(names)) && ts[r.next].kind == RBrace
    decreases |ts| - pos
  {
    if ts[pos].kind == RBrace {
      names := [];
      assert acc + [] == acc;
    } else {
      var rest := NamesBack(ts, pos + 1, acc + [ts[pos].text]);
      names := [ts[pos].text] + rest;
      assert acc + [ts[pos].text] + rest == acc + names;
      assert Names(names) == [W(ts[pos].text)] + Names(rest);
      SpellsBoth(ts, pos, [W(ts[pos].text)], Names(rest));
    }
  }

  lemma BlockBack(ts: seq<Token>, pos: nat)
    requires At(ts, pos) && NameBlock(ts, pos).Success?
    ensures var r := NameBlock(ts, pos).value; Spells(ts, pos, Block(r.value)) && r.next == pos + |Block(r.value)|
  {
    hide NamesFrom;
    var names := NamesBack(ts, pos + 1, []);
    assert [] + names == names;
    assert WellToken(LBrace, ts[pos].text) && WellToken(RBrace, ts[pos + 1 + |names|].text);
    SpellsBoth(ts, pos, [OPEN], Names(names));
    SpellsBoth(ts, pos, [OPEN] + Names(names), [CLOSE]);
  }

  lemma ListRead(ts: seq<Token>, pos: nat, word: string, names: seq<string>)
    requires At(ts, pos) && Spells(ts, pos, [W(word)] + Block(names))
    ensures ts[pos].kind == Ident && ts[pos].text == word && At(ts, pos + 1) && At(ts, pos + 1 + |Block(names)|)
    ensures NameBlock(ts, pos + 1) == Success(Parsed(names, pos + 1 + |Block(names)|))
  {
    Next(ts, pos, W(word), Block(names));
    BlockRound(ts, pos + 1, names);
  }

  lemma ListSpelled(ts: seq<Token>, pos: nat, word: string)
    requires At(ts, pos) && ts[pos].kind == Ident && ts[pos].text == word && At(ts, pos + 1) && NameBlock(ts, pos + 1).Success?
    ensures var r := NameBlock(ts, pos + 1).value;
      Spells(ts, pos, [W(word)] + Block(r.value)) && r.next == pos + |[W(word)] + Block(r.value)|
  {
    hide NameBlock, Block;
    BlockBack(ts, pos + 1);
    SpellsBoth(ts, pos, [W(word)], Block(NameBlock(ts, pos + 1).value.value));
  }

  // ---------------------------------------------------------------- agents

  lemma AgentSnoc(name: string, done: seq<AgentItem>, i: AgentItem)
    requires LegalAgentItem(i)
    ensures var a := AgentOf(name, done);
      AgentOf(name, done + [i]) ==
        match i
        case ProviderItem(v) => a.(provider := Some(v))
        case ModelItem(v) => a.(model := Some(v))
        case PromptItem(text) => a.(prompt := Some(Unquote(text)))
        case CapabilitiesItem(names) => a.(capabilities := names)
        case ToolsItem(names) => a.(tools := names)
  {
    hide LastOf, Unquote;
    LastSnoc(done, i, ProviderIn);
    LastSnoc(done, i, ModelIn);
    LastSnoc(done, i, PromptIn);
    LastSnoc(done, i, CapabilitiesIn);
    LastSnoc(done, i, ToolsIn);
  }

  lemma AgentItemReads(ts: seq<Token>, pos: nat, name: string, done: seq<AgentItem>, i: AgentItem)
    requires At(ts, pos) && Spells(ts, pos, SpellAgentItem(i)) && LegalAgentItem(i)
    ensures ts[pos].kind == Ident
    ensures AgentField(ts, pos, AgentOf(name, done)) == Success(Parsed(AgentOf(name, done + [i]), pos + |SpellAgentItem(i)|))
  {
    hide AgentOf, Unquote, Block, NameBlock, Spells, Stream;
    AgentSnoc(name, done, i);
    match i
    case ProviderItem(v) => TwoRead(ts, pos, "provider", W(v));
    case ModelItem(v) => TwoRead(ts, pos, "model", W(v));
    case PromptItem(text) => TwoRead(ts, pos, "prompt", Lexeme(Text, text));
    case CapabilitiesItem(names) => ListRead(ts, pos, "capabilities", names);
    case ToolsItem(names) => ListRead(ts, pos, "tools", names);
  }

  lemma AgentItemBack(ts: seq<Token>, pos: nat, name: string, done: seq<AgentItem>) returns (i: AgentItem)
    requires At(ts, pos) && AgentField(ts, pos, AgentOf(name, done)).Success?
    ensures LegalAgentItem(i) && Spells(ts, pos, SpellAgentItem(i))
    ensures AgentField(ts, pos, AgentOf(name, done)) == Success(Parsed(AgentOf(name, done + [i]), pos + |SpellAgentItem(i)|))
  {
    hide AgentOf, Unquote, Block, NameBlock, Spells;
    var word, v := ts[pos].text, ts[pos + 1].text;
    if word == "provider" { i := ProviderItem(v); TwoSpelled(ts, pos, word, Ident); }
    else if word == "model" { i := ModelItem(v); TwoSpelled(ts, pos, word, Ident); }
    else if word == "prompt" { i := PromptItem(v); TwoSpelled(ts, pos, word, Text); TextIsQuoted(ts, pos + 1); }
    else if word == "capabilities" { i := CapabilitiesItem(NameBlock(ts, pos + 1).value.value); ListSpelled(ts, pos, word); }
    else { i := ToolsItem(NameBlock(ts, pos + 1).value.value); ListSpelled(ts, pos, word); }
    AgentSnoc(name, done, i);
  }

  lemma TextIsQuoted(ts: seq<Token>, pos: nat)
    requires At(ts, pos) && ts[pos].kind == Text
    ensures |ts[pos].text| >= 2
  {
  }

  lemma {:induction false} AgentItemsRead(ts: seq<Token>, pos: nat, name: string, done: seq<AgentItem>, items: seq<AgentItem>)
    requires At(ts, pos) && Spells(ts, pos, SpellAll(items, SpellAgentItem) + [CLOSE])
    requires forall k | 0 <= k < |items| :: LegalAgentItem(items[k])
    ensures AgentRest(ts, pos, AgentOf(name, done)) ==
      Success(Parsed(AgentOf(name, done + items), pos + |SpellAll(items, SpellAgentItem)|))
    ensures Spells(ts, pos + |SpellAll(items, SpellAgentItem)|, [CLOSE])
    decreases |items|
  {
    hide AgentOf, Spells, Stream, LegalAgentItem, AgentField, SpellAgentItem;
    if items == [] {
      assert done + items == done && SpellAll(items, SpellAgentItem) + [CLOSE] == [CLOSE];
      Closing(ts, pos);
    } else {
      var first, rest := SpellAgentItem(items[0]), SpellAll(items[1..], SpellAgentItem);
      assert SpellAll(items, SpellAgentItem) + [CLOSE] == first + (rest + [CLOSE]);
      Split(ts, pos, first, rest + [CLOSE]);
      AgentItemReads(ts, pos, name, done, items[0]);
      AgentStep(ts, pos, AgentOf(name, done), pos + |first|, AgentOf(name, done + [items[0]]));
      AgentItemsRead(ts, pos + |first|, name, done + [items[0]], items[1..]);
      Rejoin(done, items);
    }
  }

  lemma {:induction false} AgentItemsBack(ts: seq<Token>, pos: nat, name: string, done: seq<AgentItem>) returns (items: seq<AgentItem>)
    requires At(ts, pos) && AgentRest(ts, pos, AgentOf(name, done)).Success?
    ensures forall k | 0 <= k < |items| :: LegalAgentItem(items[k])
    ensures Spells(ts, pos, SpellAll(items, SpellAgentItem))
    ensures AgentRest(ts, pos, AgentOf(name, done)) ==
      Success(Parsed(AgentOf(name, done + items), pos + |SpellAll(items, SpellAgentItem)|))
    decreases |ts| - pos
  {
    hide AgentOf, LegalAgentItem, AgentField, SpellAgentItem, Spells;
    if ts[pos].kind == RBrace {
      items := [];
      SpellsNothing(ts, pos);
      assert done + items == done;
    } else {
      var i := AgentItemBack(ts, pos, name, done);
      var rest := AgentItemsBack(ts, pos + |SpellAgentItem(i)|, name, done + [i]);
      items := [i] + rest;
      assert items[1..] == rest;
      Rejoin(done, items);
      SpellsBoth(ts, pos, SpellAgentItem(i), SpellAll(rest, SpellAgentItem));
    }
  }

  // ---------------------------------------------------------------- policies

  lemma PolicySnoc(done: seq<PolicyItem>, i: PolicyItem)
    requires LegalPolicyItem(i)
    ensures var p := PolicyOf(done);
      PolicyOf(done + [i]) ==
        match i
        case CostItem(text) => p.(maxCost := Some(ParseDecimal(text[1..])))
        case WidthItem(text) => p.(maxParallel := Some(Truncate(ParseDecimal(text))))
        case TimeItem(text) => p.(maxRuntime := Some(ParseDuration(text)))
        case ApprovalItem(name) => p.(approvalFor := p.approvalFor + [name])
  {
    hide LastOf, AllOf, ParseDecimal, ParseDuration, Truncate, IsLiteral, IsDurationText;
    LastSnoc(done, i, CostIn);
    LastSnoc(done, i, WidthIn);
    LastSnoc(done, i, TimeIn);
    LastSnoc(done, i, ApprovalIn);
    assert PolicyOf(done).approvalFor + [] == PolicyOf(done).approvalFor;
  }

  lemma PolicyItemReads(ts: seq<Token>, pos: nat, done: seq<PolicyItem>, i: PolicyItem)
    requires At(ts, pos) && Spells(ts, pos, SpellPolicyItem(i)) && LegalPolicyItem(i)
    ensures ts[pos].kind == Ident
    ensures PolicyField(ts, pos, PolicyOf(done)) == Success(Parsed(PolicyOf(done + [i]), pos + 2))
  {
    hide PolicyOf, Spells, Stream, ParseDecimal, ParseDuration, Truncate, IsLiteral, IsDurationText;
    PolicySnoc(done, i);
    match i
    case CostItem(text) => TwoRead(ts, pos, "max_cost", Lexeme(Dollar, text));
    case WidthItem(text) => TwoRead(ts, pos, "max_parallel", Lexeme(Number, text));
    case TimeItem(text) => TwoRead(ts, pos, "timeout", Lexeme(Duration, text));
    case ApprovalItem(name) => TwoRead(ts, pos, "approval", W(name));
  }

  lemma PolicyItemBack(ts: seq<Token>, pos: nat, done: seq<PolicyItem>) returns (i: PolicyItem)
    requires At(ts, pos) && PolicyField(ts, pos, PolicyOf(done)).Success?
    ensures LegalPolicyItem(i) && Spells(ts, pos, SpellPolicyItem(i))
    ensures PolicyField(ts, pos, PolicyOf(done)) == Success(Parsed(PolicyOf(done + [i]), pos + 2))
  {
    hide PolicyOf, Spells, ParseDecimal, ParseDuration, Truncate, IsLiteral, IsDurationText;
    var word, v := ts[pos].text, ts[pos + 1].text;
    assert WellToken(ts[pos + 1].kind, v);
    if word == "max_cost" { i := CostItem(v); TwoSpelled(ts, pos, word, Dollar); }
    else if word == "max_parallel" { i := WidthItem(v); TwoSpelled(ts, pos, word, Number); }
    else if word == "timeout" { i := TimeItem(v); TwoSpelled(ts, pos, word, Duration); }
    else { i := ApprovalItem(v); TwoSpelled(ts, pos, word, Ident); }
    PolicySnoc(done, i);
  }

  lemma {:induction false} PolicyItemsRead(ts: seq<Token>, pos: nat, done: seq<PolicyItem>, items: seq<PolicyItem>)
    requires At(ts, pos) && Spells(ts, pos, SpellAll(items, SpellPolicyItem) + [CLOSE])
    requires forall k | 0 <= k < |items| :: LegalPolicyItem(items[k])
    ensures PolicyRest(ts, pos, PolicyOf(done)) == Success(Parsed(PolicyOf(done + items), pos + |SpellAll(items, SpellPolicyItem)|))
    ensures Spells(ts, pos + |SpellAll(items, SpellPolicyItem)|, [CLOSE])
    decreases |items|
  {
    hide PolicyOf, Spells, Stream, LegalPolicyItem, PolicyField;
    if items == [] {
      assert done + items == done && SpellAll(items, SpellPolicyItem) + [CLOSE] == [CLOSE];
      Closing(ts, pos);
    } else {
      var first, rest := SpellPolicyItem(items[0]), SpellAll(items[1..], SpellPolicyItem);
      assert SpellAll(items, SpellPolicyItem) + [CLOSE] == first + (rest + [CLOSE]);
      Split(ts, pos, first, rest + [CLOSE]);
      PolicyItemReads(ts, pos, done, items[0]);
      PolicyStep(ts, pos, PolicyOf(done), pos + 2, PolicyOf(done + [items[0]]));
      PolicyItemsRead(ts, pos + 2, done + [items[0]], items[1..]);
      Rejoin(done, items);
    }
  }

  lemma {:induction false} PolicyItemsBack(ts: seq<Token>, pos: nat, done: seq<PolicyItem>) returns (items: seq<PolicyItem>)
    requires At(ts, pos) && PolicyRest(ts, pos, PolicyOf(done)).Success?
    ensures forall k | 0 <= k < |items| :: LegalPolicyItem(items[k])
    ensures Spells(ts, pos, SpellAll(items, SpellPolicyItem))
    ensures PolicyRest(ts, pos, PolicyOf(done)) == Success(Parsed(PolicyOf(done + items), pos + |SpellAll(items, SpellPolicyItem)|))
    decreases |ts| - pos
  {
    hide PolicyOf, LegalPolicyItem, PolicyField, Spells;
    if ts[pos].kind == RBrace {
      items := [];
      SpellsNothing(ts, pos);
      assert done + items == done;
    } else {
      var i := PolicyItemBack(ts, pos, done);
      var rest := PolicyItemsBack(ts, pos + 2, done + [i]);
      items := [i] + rest;
      assert items[1..] == rest;
      Rejoin(done, items);
      SpellsBoth(ts, pos, SpellPolicyItem(i), SpellAll(rest, SpellPolicyItem));
    }
  }

  // ---------------------------------------------------------------- votes

  function ChoiceOf(items: seq<VoteItem>): Choice {
    Choice(LastOf(items, StrategyIn), LastOf(items, ModeIn), Or(LastOf(items, ConfidenceIn), false))
  }

  lemma ChoiceSnoc(done: seq<VoteItem>, i: VoteItem)
    ensures var c := ChoiceOf(done);
      ChoiceOf(done + [i]) ==
        match i
        case StrategyItem(word) => c.(strategy := Some(word))
        case ModeItem(word) => c.(mode := Some(word))
        case ConfidenceItem(word) => c.(confidence := word == "true")
  {
    hide LastOf;
    LastSnoc(done, i, StrategyIn);
    LastSnoc(done, i, ModeIn);
    LastSnoc(done, i, ConfidenceIn);
  }

  lemma VoteItemReads(ts: seq<Token>, pos: nat, done: seq<VoteItem>, i: VoteItem)
    requires At(ts, pos) && Spells(ts, pos, SpellVoteItem(i)) && LegalVoteItem(i)
    ensures ts[pos].kind == Ident
    ensures ChoiceField(ts, pos, ChoiceOf(done)) == Success(Parsed(ChoiceOf(done + [i]), pos + 2))
  {
    hide ChoiceOf, Spells, Stream;
    ChoiceSnoc(done, i);
    match i
    case StrategyItem(word) => TwoRead(ts, pos, "strategy", W(word));
    case ModeItem(word) => TwoRead(ts, pos, "mode", W(word));
    case ConfidenceItem(word) => TwoRead(ts, pos, "confidence", W(word));
  }

  lemma VoteItemBack(ts: seq<Token>, pos: nat, done: seq<VoteItem>) returns (i: VoteItem)
    requires At(ts, pos) && ChoiceField(ts, pos, ChoiceOf(done)).Success?
    ensures LegalVoteItem(i) && Spells(ts, pos, SpellVoteItem(i))
    ensures ChoiceField(ts, pos, ChoiceOf(done)) == Success(Parsed(ChoiceOf(done + [i]), pos + 2))
  {
    hide ChoiceOf, Spells;
    var word, v := ts[pos].text, ts[pos + 1].text;
    TwoSpelled(ts, pos, word, Ident);
    i := if word == "strategy" then StrategyItem(v) else if word == "mode" then ModeItem(v) else ConfidenceItem(v);
    ChoiceSnoc(done, i);
  }

  lemma {:induction false} VoteItemsRead(ts: seq<Token>, pos: nat, done: seq<VoteItem>, items: seq<VoteItem>)
    requires At(ts, pos) && Spells(ts, pos, SpellAll(items, SpellVoteItem) + [CLOSE])
    requires forall k | 0 <= k < |items| :: LegalVoteItem(items[k])
    ensures ChoiceRest(ts, pos, ChoiceOf(done)) == Success(Parsed(ChoiceOf(done + items), pos + |SpellAll(items, SpellVoteItem)|))
    ensures Spells(ts, pos + |SpellAll(items, SpellVoteItem)|, [CLOSE])
    decreases |items|
  {
    hide ChoiceOf, Spells, Stream, LegalVoteItem, ChoiceField;
    if items == [] {
      assert done + items == done && SpellAll(items, SpellVoteItem) + [CLOSE] == [CLOSE];
      Closing(ts, pos);
    } else {
      var first, rest := SpellVoteItem(items[0]), SpellAll(items[1..], SpellVoteItem);
      assert SpellAll(items, SpellVoteItem) + [CLOSE] == first + (rest + [CLOSE]);
      Split(ts, pos, first, rest + [CLOSE]);
      VoteItemReads(ts, pos, done, items[0]);
      ChoiceStep(ts, pos, ChoiceOf(done), pos + 2, ChoiceOf(done + [items[0]]));
      VoteItemsRead(ts, pos + 2, done + [items[0]], items[1..]);
      Rejoin(done, items);
    }
  }

  lemma {:induction false} VoteItemsBack(ts: seq<Token>, pos: nat, done: seq<VoteItem>) returns (items: seq<VoteItem>)
    requires At(ts, pos) && ChoiceRest(ts, pos, ChoiceOf(done)).Success?
    ensures forall k | 0 <= k < |items| :: LegalVoteItem(items[k])
    ensures Spells(ts, pos, SpellAll(items, SpellVoteItem))
    ensures ChoiceRest(ts, pos, ChoiceOf(done)) == Success(Parsed(ChoiceOf(done + items), pos + |SpellAll(items, SpellVoteItem)|))
    decreases |ts| - pos
  {
    hide ChoiceOf, LegalVoteItem, ChoiceField, Spells;
    if ts[pos].kind == RBrace {
      items := [];
      SpellsNothing(ts, pos);
      assert done + items == done;
    } else {
      var i := VoteItemBack(ts, pos, done);
      var rest := VoteItemsBack(ts, pos + 2, done + [i]);
      items := [i] + rest;
      assert items[1..] == rest;
      Rejoin(done, items);
      SpellsBoth(ts, pos, SpellVoteItem(i), SpellAll(rest, SpellVoteItem));
    }
  }

  /** A block says which strategy exactly when one of its fields does. */
  lemma {:induction false} StrategySaid(items: seq<VoteItem>)
    ensures LastOf(items, StrategyIn).Some? <==> exists k :: 0 <= k < |items| && items[k].StrategyItem?
    decreases |items|
  {
    if items != [] {
      var init := items[..|items| - 1];
      StrategySaid(init);
      if k :| 0 <= k < |items| && items[k].StrategyItem? {
        if k < |init| { assert init[k].StrategyItem?; }
      }
      if k :| 0 <= k < |init| && init[k].StrategyItem? { assert items[k].StrategyItem?; }
    }
  }

  // ---------------------------------------------------------------- artifacts

  function ArtifactOf(name: string, items: seq<ArtifactItem>): (s: Stmt)
    ensures s.ArtifactStmt?
  {
    ArtifactStmt(name, LastOf(items, TypeIn), LastOf(items, SchemaIn))
  }

  lemma ArtifactSnoc(name: string, done: seq<ArtifactItem>, i: ArtifactItem)
    ensures var a := ArtifactOf(name, done);
      ArtifactOf(name, done + [i]) == match i case TypeItem(v) => a.(type_ := Some(v)) case SchemaItem(v) => a.(schema := Some(v))
  {
    hide LastOf;
    LastSnoc(done, i, TypeIn);
    LastSnoc(done, i, SchemaIn);
  }

  lemma ArtifactItemReads(ts: seq<Token>, pos: nat, name: string, done: seq<ArtifactItem>, i: ArtifactItem)
    requires At(ts, pos) && Spells(ts, pos, SpellArtifactItem(i))
    ensures ts[pos].kind == Ident
    ensures ArtifactField(ts, pos, ArtifactOf(name, done)) == Success(Parsed(ArtifactOf(name, done + [i]), pos + 2))
  {
    hide ArtifactOf, Spells, Stream;
    ArtifactSnoc(name, done, i);
    match i
    case TypeItem(v) => TwoRead(ts, pos, "type", W(v));
    case SchemaItem(v) => TwoRead(ts, pos, "schema", W(v));
  }

  lemma ArtifactItemBack(ts: seq<Token>, pos: nat, name: string, done: seq<ArtifactItem>) returns (i: ArtifactItem)
    requires At(ts, pos) && ArtifactField(ts, pos, ArtifactOf(name, done)).Success?
    ensures Spells(ts, pos, SpellArtifactItem(i))
    ensures ArtifactField(ts, pos, ArtifactOf(name, done)) == Success(Parsed(ArtifactOf(name, done + [i]), pos + 2))
  {
    hide ArtifactOf, Spells;
    var word, v := ts[pos].text, ts[pos + 1].text;
    TwoSpelled(ts, pos, word, Ident);
    i := if word == "type" then TypeItem(v) else SchemaItem(v);
    ArtifactSnoc(name, done, i);
  }

  lemma {:induction false} ArtifactItemsRead(ts: seq<Token>, pos: nat, name: string, done: seq<ArtifactItem>, items: seq<ArtifactItem>)
    requires At(ts, pos) && Spells(ts, pos, SpellAll(items, SpellArtifactItem) + [CLOSE])
    ensures ArtifactRest(ts, pos, ArtifactOf(name, done)) ==
      Success(Parsed(ArtifactOf(name, done + items), pos + |SpellAll(items, SpellArtifactItem)|))
    ensures Spells(ts, pos + |SpellAll(items, SpellArtifactItem)|, [CLOSE])
    decreases |items|
  {
    hide ArtifactOf, Spells, Stream, ArtifactField;
    if items == [] {
      assert done + items == done && SpellAll(items, SpellArtifactItem) + [CLOSE] == [CLOSE];
      Closing(ts, pos);
    } else {
      var first, rest := SpellArtifactItem(items[0]), SpellAll(items[1..], SpellArtifactItem);
      assert SpellAll(items, SpellArtifactItem) + [CLOSE] == first + (rest + [CLOSE]);
      Split(ts, pos, first, rest + [CLOSE]);
      ArtifactItemReads(ts, pos, name, done, items[0]);
      ArtifactStep(ts, pos, ArtifactOf(name, done), pos + 2, ArtifactOf(name, done + [items[0]]));
      ArtifactItemsRead(ts, pos + 2, name, done + [items[0]], items[1..]);
      Rejoin(done, items);
    }
  }

  lemma {:induction false} ArtifactItemsBack(ts: seq<Token>, pos: nat, name: string, done: seq<ArtifactItem>) returns (items: seq<ArtifactItem>)
    requires At(ts, pos) && ArtifactRest(ts, pos, ArtifactOf(name, done)).Success?
    ensures Spells(ts, pos, SpellAll(items, SpellArtifactItem))
    ensures ArtifactRest(ts, pos, ArtifactOf(name, done)) ==
      Success(Parsed(ArtifactOf(name, done + items), pos + |SpellAll(items, SpellArtifactItem)|))
    decreases |ts| - pos
  {
    hide ArtifactOf, ArtifactField, Spells;
    if ts[pos].kind == RBrace {
      items := [];
      SpellsNothing(ts, pos);
      assert done + items == done;
    } else {
      var i := ArtifactItemBack(ts, pos, name, done);
      var rest := ArtifactItemsBack(ts, pos + 2, name, done + [i]);
      items := [i] + rest;
      assert items[1..] == rest;
      Rejoin(done, items);
      SpellsBoth(ts, pos, SpellArtifactItem(i), SpellAll(rest, SpellArtifactItem));
    }
  }

  // ---------------------------------------------------------------- approval messages

  function MessageOf(messages: seq<string>): Option<string> {
    LastOf(messages, MessageIn)
  }

  lemma MessageSnoc(done: seq<string>, text: string)
    requires |text| >= 2
    ensures MessageOf(done + [text]) == Some(Unquote(text))
  {
    hide Unquote;
    LastSnoc(done, text, MessageIn);
  }

  lemma MessageReads(ts: seq<Token>, pos: nat, done: seq<string>, text: string)
    requires At(ts, pos) && Spells(ts, pos, SpellMessage(text)) && |text| >= 2
    ensures At(ts, pos + 2) && ApprovalRest(ts, pos, MessageOf(done)) == ApprovalRest(ts, pos + 2, MessageOf(done + [text]))
  {
    hide MessageOf, Spells, Stream, Unquote;
    MessageSnoc(done, text);
    TwoRead(ts, pos, "message", Lexeme(Text, text));
  }

  lemma MessageBack(ts: seq<Token>, pos: nat, done: seq<string>) returns (text: string)
    requires At(ts, pos) && ApprovalRest(ts, pos, MessageOf(done)).Success? && ts[pos].kind != RBrace
    ensures |text| >= 2 && Spells(ts, pos, SpellMessage(text))
    ensures At(ts, pos + 2) && ApprovalRest(ts, pos, MessageOf(done)) == ApprovalRest(ts, pos + 2, MessageOf(done + [text]))
  {
    hide MessageOf, Spells, Unquote;
    text := ts[pos + 1].text;
    TwoSpelled(ts, pos, "message", Text);
    TextIsQuoted(ts, pos + 1);
    MessageSnoc(done, text);
  }

  lemma {:induction false} MessagesRead(ts: seq<Token>, pos: nat, done: seq<string>, texts: seq<string>)
    requires At(ts, pos) && Spells(ts, pos, SpellAll(texts, SpellMessage) + [CLOSE]) && forall k | 0 <= k < |texts| :: |texts[k]| >= 2
    ensures ApprovalRest(ts, pos, MessageOf(done)) == Success(Parsed(MessageOf(done + texts), pos + |SpellAll(texts, SpellMessage)|))
    ensures Spells(ts, pos + |SpellAll(texts, SpellMessage)|, [CLOSE])
    decreases |texts|
  {
    hide MessageOf, Spells, Stream, ApprovalRest;
    if texts == [] {
      assert done + texts == done && SpellAll(texts, SpellMessage) + [CLOSE] == [CLOSE];
      ApprovalEnd(ts, pos, MessageOf(done));
    } else {
      var first, rest := SpellMessage(texts[0]), SpellAll(texts[1..], SpellMessage);
      assert SpellAll(texts, SpellMessage) + [CLOSE] == first + (rest + [CLOSE]);
      Split(ts, pos, first, rest + [CLOSE]);
      MessageReads(ts, pos, done, texts[0]);
      MessagesRead(ts, pos + 2, done + [texts[0]], texts[1..]);
      Rejoin(done, texts);
    }
  }

  lemma {:induction false} MessagesBack(ts: seq<Token>, pos: nat, done: seq<string>) returns (texts: seq<string>)
    requires At(ts, pos) && ApprovalRest(ts, pos, MessageOf(done)).Success?
    ensures (forall k | 0 <= k < |texts| :: |texts[k]| >= 2) && Spells(ts, pos, SpellAll(texts, SpellMessage))
    ensures ApprovalRest(ts, pos, MessageOf(done)) == Success(Parsed(MessageOf(done + texts), pos + |SpellAll(texts, SpellMessage)|))
    decreases |ts| - pos
  {
    hide MessageOf, Spells;
    if ts[pos].kind == RBrace {
      texts := [];
      SpellsNothing(ts, pos);
      assert done + texts == done;
    } else {
      hide ApprovalRest;
      var text := MessageBack(ts, pos, done);
      var rest := MessagesBack(ts, pos + 2, done + [text]);
      texts := [text] + rest;
      assert texts[1..] == rest;
      Rejoin(done, texts);
      SpellsBoth(ts, pos, SpellMessage(text), SpellAll(rest, SpellMessage));
    }
  }
}
