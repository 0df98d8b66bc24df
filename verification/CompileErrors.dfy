/** Which error a representation that cannot be built is refused with: the first in the order of the checks. */
module CompileErrors {
  import opened Wrappers
  import opened Values
  import opened Runtime
  import opened Grammars
  import opened Compilers
  import opened CompilerLaws

  // ---------------------------------------------------------------- agents

  predicate KnownCapability(env: Environment, name: string) {
    name in {"Network", "Filesystem", "Email", "Payments", "Database"} || name in env.capabilities
  }

  predicate KnownCapabilities(env: Environment, a: AgentIR) {
    forall i | 0 <= i < |a.capabilities| :: KnownCapability(env, a.capabilities[i])
  }

  predicate KnownTools(env: Environment, a: AgentIR) {
    forall i | 0 <= i < |a.tools| :: a.tools[i] in env.tools
  }

  /** The error this agent's declaration is to be refused with: its provider, its capabilities, its tools, its prompt. */
  predicate AgentBlamed(env: Environment, default_: Option<string>, a: AgentIR, e: CompileError) {
    if a.provider.None? && default_.None? then e == NoProvider
    else if !Provides(env, (if a.provider.Some? then a.provider else default_).value) then e == UnknownProvider
    else if !KnownCapabilities(env, a) then e == UnknownCapability
    else if !KnownTools(env, a) then e == UnknownTool
    else e == BadTemplate && !AgentBuilds(env, default_, a)
  }

  lemma AgentError(env: Environment, default_: Option<string>, a: AgentIR)
    ensures BuildAgent(env, default_, a).Failure? ==> AgentBlamed(env, default_, a, BuildAgent(env, default_, a).error)
  {
  }

  lemma {:induction false} AgentsError(env: Environment, default_: Option<string>, agents: seq<AgentIR>, n: nat, acc: Agents) returns (k: nat)
    requires n <= |agents| && AgentsFrom(env, default_, agents, n, acc).Failure?
    ensures n <= k < |agents| && AgentBlamed(env, default_, agents[k], AgentsFrom(env, default_, agents, n, acc).error)
    ensures forall j | n <= j < k :: AgentBuilds(env, default_, agents[j])
    decreases |agents| - n
  {
    hide AgentBuilds, BuildAgent, AgentBlamed;
    AgentError(env, default_, agents[n]);
    AgentBuildsIff(env, default_, agents[n]);
    var one := BuildAgent(env, default_, agents[n]);
    if one.Success? { k := AgentsError(env, default_, agents, n + 1, acc[agents[n].name := one.value]); } else { k := n; }
  }

  // ---------------------------------------------------------------- statements

  predicate StrategyBlamed(ir: IR, env: Environment, s: Stmt, e: CompileError)
    requires s.ConsensusStmt?
  {
    if s.strategy !in {"majority", "unanimous", "judge"} then e == CompileError.UnknownStrategy
    else if s.strategy != "judge" then false
    else if ir.provider.None? then e == NoJudgeProvider
    else if !Provides(env, ir.provider.value) then e == UnknownProvider
    else e == BadMode && s.mode.Some? && s.mode.value !in {"", "select", "synthesize"}
  }

  predicate FoldBlamed(ir: IR, env: Environment, test: Stmt, consensus: Stmt, e: CompileError)
    requires test.IfStmt? && consensus.ConsensusStmt?
  {
    if test.op != "<" then e == OnlyLessThan
    else if !(|test.then_| == 1 && test.then_[0].RefStmt?) then e == OnlyOneReference
    else if test.field == "confidence" && consensus.strategy != "judge" then e == NeedsJudge
    else if test.field == "confidence" && !consensus.confidence then e == NeedsConfidence
    else e == UnknownTool && !Resolvable(ir, env, test.then_[0].name)
  }

  /** The error the statement at i is to be refused with. */
  predicate StmtBlamed(ir: IR, env: Environment, body: seq<Stmt>, i: nat, e: CompileError)
    requires i < |body|
  {
    match body[i]
    case StepStmt(ref) => e == UnknownTool && !Resolvable(ir, env, ref)
    case RefStmt(name) => e == UnknownTool && !Resolvable(ir, env, name)
    case ParallelStmt(members) =>
      if forall k | 0 <= k < |members| :: Resolvable(ir, env, members[k]) then e == CompileError.TooFewTools && |members| < 2
      else e == UnknownTool
    case ConsensusStmt(_, _, _) =>
      if i > 0 && body[i - 1].ParallelStmt? then StrategyBlamed(ir, env, body[i], e) else e == NoParallelBefore
    case IfStmt(_, _, _, _) =>
      if i > 0 && body[i - 1].ConsensusStmt? then FoldBlamed(ir, env, body[i], body[i - 1], e) else e == MisplacedIf
    case ApprovalStmt(_) => e == NotYetSupported
    case MemoryStmt(_) => e == NotYetSupported
    case _ => false
  }

  lemma ResolveError(ir: IR, env: Environment, sc: Scope, name: string)
    requires ir.workflow.Some? && Scoped(ir, env, sc) && Resolve(env, sc.agents, name).Failure?
    ensures Resolve(env, sc.agents, name) == Failure(UnknownTool) && !Resolvable(ir, env, name)
  {
    ResolveIff(ir, env, sc, name);
  }

  lemma {:induction false} ResolveAllError(ir: IR, env: Environment, sc: Scope, names: seq<string>, n: nat, acc: seq<Tool>)
    requires ir.workflow.Some? && Scoped(ir, env, sc) && n <= |names| && ResolveFrom(env, sc.agents, names, n, acc).Failure?
    ensures ResolveFrom(env, sc.agents, names, n, acc) == Failure(UnknownTool)
    decreases |names| - n
  {
    hide Scoped, Resolvable, Resolve;
    var one := Resolve(env, sc.agents, names[n]);
    if one.Success? { ResolveAllError(ir, env, sc, names, n + 1, acc + [one.value]); } else { ResolveError(ir, env, sc, names[n]); }
  }

  lemma GroupError(ir: IR, env: Environment, sc: Scope, st: Building, i: nat)
    requires ir.workflow.Some? && Scoped(ir, env, sc) && i < |sc.body| && sc.body[i].ParallelStmt?
    requires AddGroup(sc, st, sc.body[i].members).Failure?
    ensures StmtBlamed(ir, env, sc.body, i, AddGroup(sc, st, sc.body[i].members).error)
  {
    hide Resolvable, Resolve;
    var members := sc.body[i].members;
    ResolveAllIff(ir, env, sc, members, 0, []);
    if ResolveFrom(env, sc.agents, members, 0, []).Failure? { ResolveAllError(ir, env, sc, members, 0, []); }
  }

  lemma StrategyError(ir: IR, env: Environment, s: Stmt)
    requires s.ConsensusStmt? && ResolveStrategy(env, ir.provider, s).Failure?
    ensures StrategyBlamed(ir, env, s, ResolveStrategy(env, ir.provider, s).error)
  {
  }

  lemma FoldError(ir: IR, env: Environment, sc: Scope, test: Stmt, consensus: Stmt)
    requires ir.workflow.Some? && Scoped(ir, env, sc) && test.IfStmt? && consensus.ConsensusStmt?
    requires ResolveFallback(env, sc.agents, test, consensus).Failure?
    ensures FoldBlamed(ir, env, test, consensus, ResolveFallback(env, sc.agents, test, consensus).error)
  {
    hide Resolvable, Resolve, Scoped;
    if |test.then_| == 1 && test.then_[0].RefStmt? && Resolve(env, sc.agents, test.then_[0].name).Failure? {
      ResolveError(ir, env, sc, test.then_[0].name);
    }
  }

  lemma VoteError(ir: IR, env: Environment, sc: Scope, st: Building, i: nat) returns (k: nat)
    requires ir.workflow.Some? && Scoped(ir, env, sc) && i < |sc.body| && sc.body[i].ConsensusStmt? && StandsAt(sc.body, i, st)
    requires AddVote(sc, st, i).Failure?
    ensures i <= k < |sc.body| && StmtBlamed(ir, env, sc.body, k, AddVote(sc, st, i).error)
    ensures forall j | i <= j < k :: StmtBuilds(ir, env, sc.body, j)
  {
    hide ResolveStrategy, ResolveFallback, Resolvable, Scoped, FoldBlamed, StrategyBlamed, StrategyBuilds;
    ScopedParts(ir, env, sc);
    k := i;
    if st.pending.Some? {
      StrategyBuildsIff(ir, env, sc.body[i]);
      if ResolveStrategy(env, ir.provider, sc.body[i]).Failure? {
        StrategyError(ir, env, sc.body[i]);
      } else {
        k := i + 1;
        FoldError(ir, env, sc, sc.body[i + 1], sc.body[i]);
      }
    }
  }

  lemma StrategyBuildsIff(ir: IR, env: Environment, s: Stmt)
    requires s.ConsensusStmt?
    ensures ResolveStrategy(env, ir.provider, s).Success? <==> StrategyBuilds(ir, env, s)
  {
  }

  lemma TurnError(ir: IR, env: Environment, sc: Scope, st: Building, i: nat) returns (k: nat)
    requires ir.workflow.Some? && Scoped(ir, env, sc) && i < |sc.body| && StandsAt(sc.body, i, st) && Add(sc, st, i).Failure?
    ensures i <= k < |sc.body| && StmtBlamed(ir, env, sc.body, k, Add(sc, st, i).error)
    ensures forall j | i <= j < k :: StmtBuilds(ir, env, sc.body, j)
  {
    hide AddGroup, AddVote, Scoped, Resolvable, Resolve;
    k := i;
    match sc.body[i]
    case StepStmt(ref) => StepError(ir, env, sc, st, ref, i + 1);
    case RefStmt(name) => StepError(ir, env, sc, st, name, i + 1);
    case ParallelStmt(_) => GroupError(ir, env, sc, st, i);
    case ConsensusStmt(_, _, _) => k := VoteError(ir, env, sc, st, i);
    case _ =>
  }

  lemma StepError(ir: IR, env: Environment, sc: Scope, st: Building, name: string, k: nat)
    requires ir.workflow.Some? && Scoped(ir, env, sc) && AddStep(sc, st, name, k).Failure?
    ensures AddStep(sc, st, name, k) == Failure(UnknownTool) && !Resolvable(ir, env, name)
  {
    hide Resolvable, Resolve, BindingAt;
    if Resolve(env, sc.agents, name).Failure? { ResolveError(ir, env, sc, name); }
  }

  lemma {:induction false} WalkError(ir: IR, env: Environment, sc: Scope, st: Building, i: nat) returns (k: nat)
    requires ir.workflow.Some? && Scoped(ir, env, sc) && i <= |sc.body| && StandsAt(sc.body, i, st) && LetsResolve(sc.body, |sc.body|)
    requires Walk(sc, i, st).Failure?
    ensures i <= k < |sc.body| && StmtBlamed(ir, env, sc.body, k, Walk(sc, i, st).error)
    ensures forall j | i <= j < k :: StmtBuilds(ir, env, sc.body, j)
    decreases |sc.body| - i
  {
    hide Add, Scoped, LetsResolve, StandsAt, StmtBuilds, StmtBlamed;
    if Add(sc, st, i).Failure? {
      k := TurnError(ir, env, sc, st, i);
    } else {
      TurnIff(ir, env, sc, st, i);
      k := WalkError(ir, env, sc, Add(sc, st, i).value, After(sc.body, i));
    }
  }

  // ---------------------------------------------------------------- the whole file

  predicate LetsFit(body: seq<Stmt>) {
    forall i | 0 <= i < |body| && body[i].LetStmt? :: exists k | 0 <= k < |body| :: body[k].ArtifactStmt? && body[k].name == body[i].artifact
  }

  ghost predicate AgentRefused(ir: IR, env: Environment, e: CompileError) {
    exists k | 0 <= k < |ir.agents| ::
      AgentBlamed(env, ir.provider, ir.agents[k], e) && forall j | 0 <= j < k :: AgentBuilds(env, ir.provider, ir.agents[j])
  }

  ghost predicate StmtRefused(ir: IR, env: Environment, body: seq<Stmt>, e: CompileError) {
    exists k | 0 <= k < |body| :: StmtBlamed(ir, env, body, k, e) && forall j | 0 <= j < k :: StmtBuilds(ir, env, body, j)
  }

  /**
   A file that cannot be built is refused with the first thing wrong with it: a let of no artifact before
   anything else, then the first agent, then the first statement that cannot be built.
   */
  lemma CompileErrorIs(ir: IR, env: Environment)
    requires ir.workflow.Some? && Compile(ir, env).Failure?
    ensures var e, body := Compile(ir, env).error, ir.workflow.value.body;
      if !LetsFit(body) then e == LetWithoutArtifact
      else if exists k | 0 <= k < |ir.agents| :: !AgentBuilds(env, ir.provider, ir.agents[k]) then AgentRefused(ir, env, e)
      else StmtRefused(ir, env, body, e)
  {
    hide AgentBuilds, StmtBuilds, LetsFit, LetsResolve, AgentBlamed, StmtBlamed, Scoped, Aliases;
    var body := ir.workflow.value.body;
    LetsFitIff(body);
    if LetsFit(body) {
      AgentsBuildIff(env, ir.provider, ir.agents, 0, map[]);
      if AgentsFrom(env, ir.provider, ir.agents, 0, map[]).Failure? {
        var k := AgentsError(env, ir.provider, ir.agents, 0, map[]);
      } else {
        ScopeIsScoped(ir, env);
        var k := WalkError(ir, env, ScopeOf(ir, env, AgentsFrom(env, ir.provider, ir.agents, 0, map[]).value), NOTHING, 0);
      }
    }
  }

  lemma LetsFitIff(body: seq<Stmt>)
    ensures LetsFit(body) <==> LetsResolve(body, |body|)
  {
  }
}
