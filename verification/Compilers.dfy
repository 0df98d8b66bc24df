/**
 The executor's build step: from a parsed representation to a workflow.  What names resolve to lies
 outside; an environment stands for the bindings, the provider catalog and the constructors called.
 */
module Compilers {
  import opened Wrappers
  import opened Values
  import opened Runtime
  import opened Decimals
  import opened Grammars
  import opened Workflows
  import Strategies

  const MAJORITY: Strategy := (id: nat, votes: seq<Value>) => Strategies.Majority(votes)
  const UNANIMOUS: Strategy := (id: nat, votes: seq<Value>) => Strategies.Unanimous(votes)

  datatype Environment = Environment(
    tools: map<string, Tool>,                       // bindings.tools
    capabilities: set<string>,                      // bindings.capabilities
    providers: set<string>,                         // bound or in the catalog
    isTemplate: string -> bool,                     // PromptTemplate(text) accepts it
    agent: (AgentIR, string) -> Tool,               // Agent(...) with that provider
    judge: (string, string, bool) -> Strategy)      // JudgeConsensus(provider, mode, confidence)

  datatype CompileError =
    | UnknownCapability | UnknownTool | UnknownProvider | NoProvider | BadTemplate
    | LetWithoutArtifact | NotYetSupported | MisplacedIf | NoParallelBefore
    | OnlyLessThan | OnlyOneReference | NeedsJudge | NeedsConfidence
    | NoJudgeProvider | UnknownStrategy | BadMode | TooFewTools

  const BUILTINS: set<string> := {"Network", "Filesystem", "Email", "Payments", "Database"}

  function ToReal(d: Decimal): real {
    d.mantissa as real / Power10(d.scale) as real
  }

  function PolicyOf(p: PolicyIR): Policy {
    Runtime.Policy(
      false,
      if p.maxParallel.Some? then Some(p.maxParallel.value as int) else None,
      if p.maxRuntime.Some? then Some(ToReal(p.maxRuntime.value)) else None,
      if p.maxCost.Some? then Some(ToReal(p.maxCost.value)) else None,
      set name | name in p.approvalFor)
  }

  // ---------------------------------------------------------------- names

  /** None when every name is a capability. */
  predicate IsCapability(env: Environment, name: string) {
    name in BUILTINS || name in env.capabilities
  }

  predicate IsProvider(env: Environment, name: string) {
    name in env.providers || name == "mock"
  }

  /** prompt or the placeholder; an empty prompt counts as none. */
  function PromptText(a: AgentIR): string {
    if a.prompt.Some? && a.prompt.value != "" then a.prompt.value else "You are " + a.name + "."
  }

  function ProviderName(a: AgentIR, default_: Option<string>): Option<string> {
    if a.provider.Some? then a.provider else default_
  }

  /** One agent declaration, checked in the order the source checks it. */
  function BuildAgent(env: Environment, default_: Option<string>, a: AgentIR): Result<Tool, CompileError> {
    var provider := ProviderName(a, default_);
    if provider.None? then Failure(NoProvider)
    else if !IsProvider(env, provider.value) then Failure(UnknownProvider)
    else if exists i :: 0 <= i < |a.capabilities| && !IsCapability(env, a.capabilities[i]) then Failure(UnknownCapability)
    else if exists i :: 0 <= i < |a.tools| && a.tools[i] !in env.tools then Failure(UnknownTool)
    else if '{' in PromptText(a) && !env.isTemplate(PromptText(a)) then Failure(BadTemplate)
    else Success(env.agent(a, provider.value))
  }

  type Agents = map<string, Tool>

  /** The agents by name, from the n-th on; a later one of the same name wins. */
  function AgentsFrom(env: Environment, default_: Option<string>, agents: seq<AgentIR>, n: nat, acc: Agents): Result<Agents, CompileError>
    requires n <= |agents|
    decreases |agents| - n
  {
    if n == |agents| then Success(acc)
    else
      var tool :- BuildAgent(env, default_, agents[n]);
      AgentsFrom(env, default_, agents, n + 1, acc[agents[n].name := tool])
  }

  /** Agents first, then bound tools. */
  function Resolve(env: Environment, agents: Agents, name: string): Result<Tool, CompileError> {
    if name in agents then Success(agents[name])
    else if name in env.tools then Success(env.tools[name])
    else Failure(UnknownTool)
  }

  function ResolveFrom(env: Environment, agents: Agents, names: seq<string>, n: nat, acc: seq<Tool>): Result<seq<Tool>, CompileError>
    requires n <= |names|
    decreases |names| - n
  {
    if n == |names| then Success(acc)
    else
      var tool :- Resolve(env, agents, names[n]);
      ResolveFrom(env, agents, names, n + 1, acc + [tool])
  }

  // ---------------------------------------------------------------- artifacts and lets

  predicate HasArtifact(body: seq<Stmt>, name: string) {
    exists i :: 0 <= i < |body| && body[i].ArtifactStmt? && body[i].name == name
  }

  /** artifact name -> let name, from the first n statements; the last let wins. */
  function Aliases(body: seq<Stmt>, n: nat): map<string, string>
    requires n <= |body|
  {
    if n == 0 then map[]
    else if body[n - 1].LetStmt? then Aliases(body, n - 1)[body[n - 1].artifact := body[n - 1].name]
    else Aliases(body, n - 1)
  }

  predicate LetsResolve(body: seq<Stmt>, n: nat)
    requires n <= |body|
  {
    forall i | 0 <= i < n && body[i].LetStmt? :: HasArtifact(body, body[i].artifact)
  }

  /** What the step before position k is bound under: the artifact there, or its alias. */
  function BindingAt(body: seq<Stmt>, aliases: map<string, string>, k: nat): Option<string> {
    if k >= |body| || !body[k].ArtifactStmt? then None
    else Some(if body[k].name in aliases then aliases[body[k].name] else body[k].name)
  }

  // ---------------------------------------------------------------- consensus

  function ResolveStrategy(env: Environment, default_: Option<string>, s: Stmt): Result<Strategy, CompileError>
    requires s.ConsensusStmt?
  {
    if s.strategy == "majority" then Success(MAJORITY)
    else if s.strategy == "unanimous" then Success(UNANIMOUS)
    else if s.strategy == "judge" then
      if default_.None? then Failure(NoJudgeProvider)
      else if !IsProvider(env, default_.value) then Failure(UnknownProvider)
      else
        var mode := if s.mode.Some? && s.mode.value != "" then s.mode.value else "synthesize";
        if mode !in MODES then Failure(BadMode) else Success(env.judge(default_.value, mode, s.confidence))
    else Failure(CompileError.UnknownStrategy)
  }

  function ResolveFallback(env: Environment, agents: Agents, test: Stmt, consensus: Stmt): Result<Fallback, CompileError>
    requires test.IfStmt? && consensus.ConsensusStmt?
  {
    if test.op != "<" then Failure(OnlyLessThan)
    else if |test.then_| != 1 || !test.then_[0].RefStmt? then Failure(OnlyOneReference)
    else if test.field == "confidence" && consensus.strategy != "judge" then Failure(NeedsJudge)
    else if test.field == "confidence" && !consensus.confidence then Failure(NeedsConfidence)
    else
      var tool :- Resolve(env, agents, test.then_[0].name);
      Success(Fallback(tool, ToReal(test.value), test.field))
  }

  predicate HasFold(body: seq<Stmt>, i: nat) {
    i + 1 < |body| && body[i + 1].IfStmt?
  }

  /** The fallback folded into the consensus at i, if an `if` follows. */
  function FoldedFallback(env: Environment, agents: Agents, body: seq<Stmt>, i: nat): Result<Option<Fallback>, CompileError>
    requires i < |body| && body[i].ConsensusStmt?
  {
    if !HasFold(body, i) then Success(None)
    else
      var fallback :- ResolveFallback(env, agents, body[i + 1], body[i]);
      Success(Some(fallback))
  }

  /** Where the walk goes on after the statement at i. */
  function After(body: seq<Stmt>, i: nat): (k: nat)
    requires i < |body|
    ensures i < k <= |body|
  {
    if body[i].ConsensusStmt? && HasFold(body, i) then i + 2 else i + 1
  }

  // ---------------------------------------------------------------- the walk over the body

  /** The parallel block just before, if there was one. */
  datatype Pending = Pending(id: GroupId, tools: seq<Tool>)

  datatype Building = Building(steps: seq<Entry>, nextGroup: GroupId, pending: Option<Pending>)

  const NOTHING := Building([], 0, None)

  /** What does not change during the walk. */
  datatype Scope = Scope(env: Environment, default_: Option<string>, agents: Agents, body: seq<Stmt>, aliases: map<string, string>)

  function AddStep(sc: Scope, st: Building, name: string, k: nat): Result<Building, CompileError> {
    var tool :- Resolve(sc.env, sc.agents, name);
    Success(st.(steps := st.steps + [Entry(Single(tool), None, BindingAt(sc.body, sc.aliases, k))], pending := None))
  }

  function AddGroup(sc: Scope, st: Building, members: seq<string>): Result<Building, CompileError> {
    var tools :- ResolveFrom(sc.env, sc.agents, members, 0, []);
    if |tools| < 2 then Failure(CompileError.TooFewTools)
    else Success(Building(st.steps + [Entry(Step.Parallel(st.nextGroup, tools), None, None)], st.nextGroup + 1,
                          Some(Pending(st.nextGroup, tools))))
  }

  function AddVote(sc: Scope, st: Building, i: nat): Result<Building, CompileError>
    requires i < |sc.body| && sc.body[i].ConsensusStmt?
  {
    if st.pending.None? then Failure(NoParallelBefore)
    else
      var strategy :- ResolveStrategy(sc.env, sc.default_, sc.body[i]);
      var fallback :- FoldedFallback(sc.env, sc.agents, sc.body, i);
      var group := Step.Consensus(st.nextGroup, st.pending.value.tools, CONSENSUS, strategy, Some(st.pending.value.id), fallback);
      Success(Building(st.steps + [Entry(group, None, BindingAt(sc.body, sc.aliases, After(sc.body, i)))], st.nextGroup + 1, None))
  }

  /** The statement at i. */
  function Add(sc: Scope, st: Building, i: nat): Result<Building, CompileError>
    requires i < |sc.body|
  {
    match sc.body[i]
    case StepStmt(ref) => AddStep(sc, st, ref, i + 1)
    case RefStmt(name) => AddStep(sc, st, name, i + 1)
    case ParallelStmt(members) => AddGroup(sc, st, members)
    case ConsensusStmt(_, _, _) => AddVote(sc, st, i)
    case ArtifactStmt(_, _, _) => Success(st.(pending := None))
    case LetStmt(_, _) => Success(st.(pending := None))
    case IfStmt(_, _, _, _) => Failure(MisplacedIf)
    case ApprovalStmt(_) => Failure(NotYetSupported)
    case MemoryStmt(_) => Failure(NotYetSupported)
  }

  function Walk(sc: Scope, i: nat, st: Building): Result<Building, CompileError>
    requires i <= |sc.body|
    decreases |sc.body| - i
  {
    if i == |sc.body| then Success(st)
    else
      var more :- Add(sc, st, i);
      Walk(sc, After(sc.body, i), more)
  }

  function ScopeOf(ir: IR, env: Environment, agents: Agents): Scope
    requires ir.workflow.Some?
  {
    var body := ir.workflow.value.body;
    Scope(env, ir.provider, agents, body, Aliases(body, |body|))
  }

  /** The entries of the workflow that build_workflow makes. */
  function Compile(ir: IR, env: Environment): Result<seq<Entry>, CompileError>
    requires ir.workflow.Some?
  {
    var body := ir.workflow.value.body;
    if !LetsResolve(body, |body|) then Failure(LetWithoutArtifact)
    else
      var agents :- AgentsFrom(env, ir.provider, ir.agents, 0, map[]);
      var built :- Walk(ScopeOf(ir, env, agents), 0, NOTHING);
      Success(built.steps)
  }

  // ---------------------------------------------------------------- the code

  /** The pre-scan: aliases of all lets, or the first let of no artifact. */
  method ScanLets(body: seq<Stmt>) returns (r: Result<map<string, string>, CompileError>)
    ensures r == if LetsResolve(body, |body|) then Success(Aliases(body, |body|)) else Failure(LetWithoutArtifact)
  {
    var aliases: map<string, string> := map[];
    var i := 0;
    while i < |body|
      invariant 0 <= i <= |body| && LetsResolve(body, i) && aliases == Aliases(body, i)
    {
      if body[i].LetStmt? {
        if !HasArtifact(body, body[i].artifact) { return Failure(LetWithoutArtifact); }
        aliases := aliases[body[i].artifact := body[i].name];
      }
      i := i + 1;
    }
    return Success(aliases);
  }

  method BuildAgents(env: Environment, default_: Option<string>, irs: seq<AgentIR>) returns (r: Result<Agents, CompileError>)
    ensures r == AgentsFrom(env, default_, irs, 0, map[])
  {
    hide BuildAgent;
    var agents: Agents := map[];
    var n := 0;
    while n < |irs|
      invariant 0 <= n <= |irs|
      invariant AgentsFrom(env, default_, irs, 0, map[]) == AgentsFrom(env, default_, irs, n, agents)
    {
      var tool :- BuildAgent(env, default_, irs[n]);
      agents := agents[irs[n].name := tool];
      n := n + 1;
    }
    return Success(agents);
  }

  method ResolveAll(env: Environment, agents: Agents, names: seq<string>) returns (r: Result<seq<Tool>, CompileError>)
    ensures r == ResolveFrom(env, agents, names, 0, [])
  {
    hide Resolve;
    var tools := [];
    while |tools| < |names|
      invariant |tools| <= |names|
      invariant ResolveFrom(env, agents, names, 0, []) == ResolveFrom(env, agents, names, |tools|, tools)
    {
      var tool :- Resolve(env, agents, names[|tools|]);
      tools := tools + [tool];
    }
    return Success(tools);
  }

  /** The workflow object and the pending handle are what has been built so far. */
  ghost predicate Holds(w: Workflow, pending: Option<ParallelResults>, st: Building)
    reads w
  {
    && w.Valid() && w.steps == st.steps && w.nextGroup == st.nextGroup
    && (pending.Some? <==> st.pending.Some?)
    && (pending.Some? ==>
         && pending.value.workflow == w && pending.value.id == st.pending.value.id && pending.value.tools == st.pending.value.tools
         && HasParallel(w.steps, |w.steps|, pending.value.id, pending.value.tools))
  }

  /** A parallel statement. */
  method BuildGroup(sc: Scope, w: Workflow, members: seq<string>, ghost pending: Option<ParallelResults>, ghost st: Building)
    returns (r: Result<ParallelResults, CompileError>)
    requires Holds(w, pending, st)
    modifies w`steps, w`nextGroup
    ensures match AddGroup(sc, st, members)
      case Success(more) => r.Success? && Holds(w, Some(r.value), more)
      case Failure(e) => r == Failure(e)
  {
    var tools :- ResolveAll(sc.env, sc.agents, members);
    var handle := w.AddParallel(tools, None);
    if handle.Failure? { return Failure(CompileError.TooFewTools); }
    assert w.steps[|w.steps| - 1].step == Step.Parallel(handle.value.id, tools);
    return Success(handle.value);
  }

  /** A consensus statement, with the `if` that may follow it. */
  method BuildVote(sc: Scope, w: Workflow, i: nat, pending: Option<ParallelResults>, ghost st: Building)
    returns (r: Result<nat, CompileError>)
    requires i < |sc.body| && sc.body[i].ConsensusStmt? && Holds(w, pending, st)
    modifies w`steps, w`nextGroup
    ensures match AddVote(sc, st, i)
      case Success(more) => r == Success(After(sc.body, i)) && Holds(w, None, more)
      case Failure(e) => r == Failure(e)
  {
    hide ResolveStrategy, ResolveFallback, BindingAt;
    if pending.None? { return Failure(NoParallelBefore); }
    var strategy :- ResolveStrategy(sc.env, sc.default_, sc.body[i]);
    var next := i + 1;
    var fallback: Option<Tool>, below: Option<real>, field := None, None, "confidence";
    if next < |sc.body| && sc.body[next].IfStmt? {
      var folded :- ResolveFallback(sc.env, sc.agents, sc.body[next], sc.body[i]);
      fallback, below, field := Some(folded.tool), Some(folded.below), folded.field;
      next := next + 1;
    }
    var error := w.AddConsensusOver(pending.value, strategy, None, fallback, below, field, BindingAt(sc.body, sc.aliases, next));
    return Success(next);
  }

  method BuildStep(sc: Scope, w: Workflow, name: string, k: nat, ghost pending: Option<ParallelResults>, ghost st: Building)
    returns (r: Result<(), CompileError>)
    requires Holds(w, pending, st)
    modifies w`steps
    ensures match AddStep(sc, st, name, k)
      case Success(more) => r.Success? && Holds(w, None, more)
      case Failure(e) => r == Failure(e)
  {
    var tool :- Resolve(sc.env, sc.agents, name);
    w.Step(tool, None, BindingAt(sc.body, sc.aliases, k));
    return Success(());
  }

  /** build_workflow(ir, bindings) */
  method BuildWorkflow(ir: IR, env: Environment) returns (r: Result<Workflow, CompileError>)
    requires ir.workflow.Some?
    ensures match Compile(ir, env)
      case Success(entries) => r.Success? && r.value.Valid() && r.value.steps == entries && r.value.policy == PolicyOf(ir.policy)
      case Failure(e) => r == Failure(e)
    ensures r.Success? ==> fresh(r.value) && fresh(r.value.bindings)
  {
    hide LetsResolve, Holds, AddStep, AddGroup, AddVote, PolicyOf;
    var body := ir.workflow.value.body;
    var aliases :- ScanLets(body);
    var w := new Workflow(PolicyOf(ir.policy));
    var agents :- BuildAgents(env, ir.provider, ir.agents);
    var sc := Scope(env, ir.provider, agents, body, aliases);
    var pending: Option<ParallelResults> := None;
    ghost var st := NOTHING;
    StartHolds(w);
    var i := 0;
    while i < |body|
      invariant 0 <= i <= |body| && Holds(w, pending, st)
      invariant Walk(sc, 0, NOTHING) == Walk(sc, i, st)
      decreases |body| - i
    {
      ghost var built := Add(sc, st, i);
      match body[i] {
        case StepStmt(ref) =>
          var done :- BuildStep(sc, w, ref, i + 1, pending, st);
          pending, i, st := None, i + 1, built.value;
        case RefStmt(name) =>
          var done :- BuildStep(sc, w, name, i + 1, pending, st);
          pending, i, st := None, i + 1, built.value;
        case ParallelStmt(members) =>
          var handle :- BuildGroup(sc, w, members, pending, st);
          pending, i, st := Some(handle), i + 1, built.value;
        case ConsensusStmt(_, _, _) =>
          var next :- BuildVote(sc, w, i, pending, st);
          pending, i, st := None, next, built.value;
        case ArtifactStmt(_, _, _) =>
          DropPending(w, pending, st);
          pending, i, st := None, i + 1, built.value;
        case LetStmt(_, _) =>
          DropPending(w, pending, st);
          pending, i, st := None, i + 1, built.value;
        case IfStmt(_, _, _, _) => return Failure(MisplacedIf);
        case ApprovalStmt(_) => return Failure(NotYetSupported);
        case MemoryStmt(_) => return Failure(NotYetSupported);
      }
    }
    HeldWorkflow(w, pending, st);
    return Success(w);
  }

  lemma StartHolds(w: Workflow)
    requires w.Valid() && w.steps == [] && w.nextGroup == 0
    ensures Holds(w, None, NOTHING)
  {
  }

  lemma DropPending(w: Workflow, pending: Option<ParallelResults>, st: Building)
    requires Holds(w, pending, st)
    ensures Holds(w, None, st.(pending := None))
  {
  }

  lemma HeldWorkflow(w: Workflow, pending: Option<ParallelResults>, st: Building)
    requires Holds(w, pending, st)
    ensures w.Valid() && w.steps == st.steps
  {
  }
}
