/** Exactly which representations can be built, and what the built list of entries looks like. */
module CompilerLaws {
  import opened Wrappers
  import opened Values
  import opened Runtime
  import opened Decimals
  import opened Grammars
  import opened Workflows
  import opened Compilers
  import opened Strategies

  // ---------------------------------------------------------------- what can be built

  /** A provider that is bound or in the catalog, or the mock one. */
  predicate Provides(env: Environment, provider: string) {
    provider in env.providers || provider == "mock"
  }

  /** The agent declarations that can be built. */
  predicate AgentBuilds(env: Environment, default_: Option<string>, a: AgentIR) {
    && (if a.provider.Some? then Provides(env, a.provider.value) else default_.Some? && Provides(env, default_.value))
    && (forall i | 0 <= i < |a.capabilities| ::
          a.capabilities[i] in {"Network", "Filesystem", "Email", "Payments", "Database"} || a.capabilities[i] in env.capabilities)
    && (forall i | 0 <= i < |a.tools| :: a.tools[i] in env.tools)
    && (var text := if a.prompt.Some? && a.prompt.value != "" then a.prompt.value else "You are " + a.name + ".";
        '{' in text ==> env.isTemplate(text))
  }

  predicate IsAgent(agents: seq<AgentIR>, name: string) {
    exists i :: 0 <= i < |agents| && agents[i].name == name
  }

  /** The name of a declared agent or a bound tool. */
  predicate Resolvable(ir: IR, env: Environment, name: string) {
    IsAgent(ir.agents, name) || name in env.tools
  }

  predicate StrategyBuilds(ir: IR, env: Environment, s: Stmt)
    requires s.ConsensusStmt?
  {
    || s.strategy == "majority" || s.strategy == "unanimous"
    || (s.strategy == "judge" && ir.provider.Some? && Provides(env, ir.provider.value)
        && (s.mode.Some? ==> s.mode.value in {"", "select", "synthesize"}))
  }

  /** One bare reference behind `<`; a confidence test needs a judge that reports it. */
  predicate FoldBuilds(ir: IR, env: Environment, test: Stmt, consensus: Stmt)
    requires test.IfStmt? && consensus.ConsensusStmt?
  {
    && test.op == "<"
    && |test.then_| == 1 && test.then_[0].RefStmt? && Resolvable(ir, env, test.then_[0].name)
    && (test.field == "confidence" ==> consensus.strategy == "judge" && consensus.confidence)
  }

  /** The statement at i, by itself and by what stands right before it. */
  predicate StmtBuilds(ir: IR, env: Environment, body: seq<Stmt>, i: nat)
    requires i < |body|
  {
    match body[i]
    case StepStmt(ref) => Resolvable(ir, env, ref)
    case RefStmt(name) => Resolvable(ir, env, name)
    case ParallelStmt(members) => |members| >= 2 && forall k | 0 <= k < |members| :: Resolvable(ir, env, members[k])
    case ConsensusStmt(_, _, _) => i > 0 && body[i - 1].ParallelStmt? && StrategyBuilds(ir, env, body[i])
    case IfStmt(_, _, _, _) => i > 0 && body[i - 1].ConsensusStmt? && FoldBuilds(ir, env, body[i], body[i - 1])
    case ArtifactStmt(_, _, _) => true
    case LetStmt(_, artifact) => exists k | 0 <= k < |body| :: body[k].ArtifactStmt? && body[k].name == artifact
    case ApprovalStmt(_) => false
    case MemoryStmt(_) => false
  }

  /** What a caller can check before building. */
  predicate Buildable(ir: IR, env: Environment)
    requires ir.workflow.Some?
  {
    && (forall i | 0 <= i < |ir.agents| :: AgentBuilds(env, ir.provider, ir.agents[i]))
    && (forall i | 0 <= i < |ir.workflow.value.body| :: StmtBuilds(ir, env, ir.workflow.value.body, i))
  }

  // ---------------------------------------------------------------- agents and names

  lemma AgentBuildsIff(env: Environment, default_: Option<string>, a: AgentIR)
    ensures BuildAgent(env, default_, a).Success? <==> AgentBuilds(env, default_, a)
  {
  }

  predicate AgentsBuild(env: Environment, default_: Option<string>, agents: seq<AgentIR>, n: nat) {
    forall i | n <= i < |agents| :: AgentBuilds(env, default_, agents[i])
  }

  lemma {:induction false} AgentsBuildIff(env: Environment, default_: Option<string>, agents: seq<AgentIR>, n: nat, acc: Agents)
    requires n <= |agents|
    ensures AgentsFrom(env, default_, agents, n, acc).Success? <==> AgentsBuild(env, default_, agents, n)
    decreases |agents| - n
  {
    hide AgentBuilds, BuildAgent;
    if n < |agents| {
      AgentBuildsIff(env, default_, agents[n]);
      var one := BuildAgent(env, default_, agents[n]);
      if one.Success? { AgentsBuildIff(env, default_, agents, n + 1, acc[agents[n].name := one.value]); }
    }
  }

  /** The last declaration of an agent of that name. */
  function LastAgent(agents: seq<AgentIR>, name: string): Option<AgentIR> {
    if agents == [] then None
    else if agents[|agents| - 1].name == name then Some(agents[|agents| - 1])
    else LastAgent(agents[..|agents| - 1], name)
  }

  /** What a name stands for: the last agent declared under it, built with its own provider or the file's, else a bound tool. */
  function Named(ir: IR, env: Environment, name: string): Option<Tool> {
    match LastAgent(ir.agents, name)
    case Some(a) =>
      if a.provider.Some? then Some(env.agent(a, a.provider.value))
      else if ir.provider.Some? then Some(env.agent(a, ir.provider.value))
      else None
    case None => if name in env.tools then Some(env.tools[name]) else None
  }

  lemma {:induction false} LastAgentIff(agents: seq<AgentIR>, name: string)
    ensures LastAgent(agents, name).Some? <==> IsAgent(agents, name)
    decreases |agents|
  {
    if agents != [] {
      var init := agents[..|agents| - 1];
      LastAgentIff(init, name);
      if agents[|agents| - 1].name != name && IsAgent(agents, name) {
        var i :| 0 <= i < |agents| && agents[i].name == name;
        assert init[i].name == name;
      }
      if IsAgent(init, name) {
        var i :| 0 <= i < |init| && init[i].name == name;
        assert agents[i].name == name;
      }
    }
  }

  /** A declared agent, built. */
  ghost predicate BuiltAs(env: Environment, default_: Option<string>, a: AgentIR, tool: Tool) {
    if a.provider.Some? then tool == env.agent(a, a.provider.value)
    else default_.Some? && tool == env.agent(a, default_.value)
  }

  /** The agents built so far are the last ones of each name. */
  ghost predicate LastBuilt(env: Environment, default_: Option<string>, agents: seq<AgentIR>, built: Agents) {
    forall name :: if LastAgent(agents, name).Some? then name in built && BuiltAs(env, default_, LastAgent(agents, name).value, built[name])
                   else name !in built
  }

  lemma OneMoreBuilt(env: Environment, default_: Option<string>, agents: seq<AgentIR>, n: nat, acc: Agents, tool: Tool)
    requires n < |agents| && LastBuilt(env, default_, agents[..n], acc) && BuiltAs(env, default_, agents[n], tool)
    ensures LastBuilt(env, default_, agents[..n + 1], acc[agents[n].name := tool])
  {
    var more := agents[..n + 1];
    assert more[..|more| - 1] == agents[..n];
    forall name ensures LastAgent(more, name) == if agents[n].name == name then Some(agents[n]) else LastAgent(agents[..n], name) {
    }
  }

  lemma {:induction false} AgentsAreLast(env: Environment, default_: Option<string>, agents: seq<AgentIR>, n: nat, acc: Agents)
    requires n <= |agents| && LastBuilt(env, default_, agents[..n], acc) && AgentsFrom(env, default_, agents, n, acc).Success?
    ensures LastBuilt(env, default_, agents, AgentsFrom(env, default_, agents, n, acc).value)
    decreases |agents| - n
  {
    hide LastBuilt;
    if n == |agents| {
      assert agents[..n] == agents;
    } else {
      var tool := BuildAgent(env, default_, agents[n]).value;
      OneMoreBuilt(env, default_, agents, n, acc, tool);
      AgentsAreLast(env, default_, agents, n + 1, acc[agents[n].name := tool]);
    }
  }

  /** What the walk resolves names to is what they stand for in the file. */
  ghost predicate Scoped(ir: IR, env: Environment, sc: Scope)
    requires ir.workflow.Some?
  {
    && sc.env == env && sc.default_ == ir.provider && sc.body == ir.workflow.value.body
    && sc.aliases == Aliases(sc.body, |sc.body|)
    && forall name :: (name in sc.agents <==> LastAgent(ir.agents, name).Some?)
                      && (name in sc.agents ==> Named(ir, env, name) == Some(sc.agents[name]))
  }

  lemma ScopeIsScoped(ir: IR, env: Environment)
    requires ir.workflow.Some? && AgentsFrom(env, ir.provider, ir.agents, 0, map[]).Success?
    ensures Scoped(ir, env, ScopeOf(ir, env, AgentsFrom(env, ir.provider, ir.agents, 0, map[]).value))
  {
    hide BuildAgent;
    NoneBuilt(env, ir.provider);
    assert ir.agents[..0] == [];
    AgentsAreLast(env, ir.provider, ir.agents, 0, map[]);
    var agents := AgentsFrom(env, ir.provider, ir.agents, 0, map[]).value;
    forall name ensures name in agents ==> Named(ir, env, name) == Some(agents[name]) {
    }
  }

  lemma NoneBuilt(env: Environment, default_: Option<string>)
    ensures LastBuilt(env, default_, [], map[])
  {
  }

  lemma ResolveIff(ir: IR, env: Environment, sc: Scope, name: string)
    requires ir.workflow.Some? && Scoped(ir, env, sc)
    ensures Resolve(env, sc.agents, name).Success? <==> Resolvable(ir, env, name)
    ensures Resolve(env, sc.agents, name).Success? ==> Named(ir, env, name) == Some(Resolve(env, sc.agents, name).value)
  {
    LastAgentIff(ir.agents, name);
  }

  lemma {:induction false} ResolveAllIff(ir: IR, env: Environment, sc: Scope, names: seq<string>, n: nat, acc: seq<Tool>)
    requires ir.workflow.Some? && Scoped(ir, env, sc) && n <= |names|
    ensures ResolveFrom(env, sc.agents, names, n, acc).Success? <==> forall k | n <= k < |names| :: Resolvable(ir, env, names[k])
    ensures ResolveFrom(env, sc.agents, names, n, acc).Success? ==>
      var tools := ResolveFrom(env, sc.agents, names, n, acc).value;
      |tools| == |acc| + |names| - n && acc <= tools
      && forall k | n <= k < |names| :: Named(ir, env, names[k]) == Some(tools[|acc| + k - n])
    decreases |names| - n
  {
    hide Scoped, Resolvable, Resolve, Named;
    if n < |names| {
      ResolveIff(ir, env, sc, names[n]);
      var one := Resolve(env, sc.agents, names[n]);
      if one.Success? { ResolveAllIff(ir, env, sc, names, n + 1, acc + [one.value]); }
    }
  }

  // ---------------------------------------------------------------- the body

  /** The walk stands at i: the block before is pending, and no `if` is left to fold. */
  predicate StandsAt(body: seq<Stmt>, i: nat, st: Building) {
    && i <= |body|
    && (st.pending.Some? <==> i > 0 && body[i - 1].ParallelStmt?)
    && (i > 0 && body[i - 1].ConsensusStmt? ==> i < |body| ==> !body[i].IfStmt?)
  }

  /** The statements a turn consumes can be built. */
  predicate TurnBuilds(ir: IR, env: Environment, body: seq<Stmt>, i: nat)
    requires i < |body|
  {
    forall k | i <= k < After(body, i) :: StmtBuilds(ir, env, body, k)
  }

  lemma StepIff(ir: IR, env: Environment, sc: Scope, st: Building, name: string, k: nat)
    requires ir.workflow.Some? && Scoped(ir, env, sc)
    ensures AddStep(sc, st, name, k).Success? <==> Resolvable(ir, env, name)
    ensures AddStep(sc, st, name, k).Success? ==> AddStep(sc, st, name, k).value.pending.None?
  {
    hide Resolvable, Resolve;
    ResolveIff(ir, env, sc, name);
  }

  lemma GroupIff(ir: IR, env: Environment, sc: Scope, st: Building, members: seq<string>)
    requires ir.workflow.Some? && Scoped(ir, env, sc)
    ensures AddGroup(sc, st, members).Success? <==> |members| >= 2 && forall k | 0 <= k < |members| :: Resolvable(ir, env, members[k])
    ensures AddGroup(sc, st, members).Success? ==> AddGroup(sc, st, members).value.pending.Some?
  {
    hide Resolvable, Resolve;
    ResolveAllIff(ir, env, sc, members, 0, []);
  }

  lemma FallbackIff(ir: IR, env: Environment, sc: Scope, test: Stmt, consensus: Stmt)
    requires ir.workflow.Some? && Scoped(ir, env, sc) && test.IfStmt? && consensus.ConsensusStmt?
    ensures ResolveFallback(env, sc.agents, test, consensus).Success? <==> FoldBuilds(ir, env, test, consensus)
  {
    hide Resolvable, Resolve;
    if |test.then_| == 1 && test.then_[0].RefStmt? { ResolveIff(ir, env, sc, test.then_[0].name); }
  }

  lemma VoteIff(ir: IR, env: Environment, sc: Scope, st: Building, i: nat)
    requires ir.workflow.Some? && Scoped(ir, env, sc) && i < |sc.body| && sc.body[i].ConsensusStmt?
    requires StandsAt(sc.body, i, st)
    ensures AddVote(sc, st, i).Success? <==> TurnBuilds(ir, env, sc.body, i)
    ensures AddVote(sc, st, i).Success? ==> AddVote(sc, st, i).value.pending.None?
  {
    hide FoldBuilds, ResolveFallback, Resolvable;
    if HasFold(sc.body, i) {
      FallbackIff(ir, env, sc, sc.body[i + 1], sc.body[i]);
      assert TurnBuilds(ir, env, sc.body, i) <==> StmtBuilds(ir, env, sc.body, i) && StmtBuilds(ir, env, sc.body, i + 1);
    } else {
      assert TurnBuilds(ir, env, sc.body, i) <==> StmtBuilds(ir, env, sc.body, i);
    }
  }

  /** A turn of the walk succeeds exactly when the statements it consumes can be built, and leaves it standing right. */
  lemma TurnIff(ir: IR, env: Environment, sc: Scope, st: Building, i: nat)
    requires ir.workflow.Some? && Scoped(ir, env, sc) && i < |sc.body| && StandsAt(sc.body, i, st)
    requires LetsResolve(sc.body, |sc.body|)
    ensures Add(sc, st, i).Success? <==> TurnBuilds(ir, env, sc.body, i)
    ensures Add(sc, st, i).Success? ==> StandsAt(sc.body, After(sc.body, i), Add(sc, st, i).value)
  {
    hide AddStep, AddGroup, AddVote, Scoped, Resolvable;
    if !sc.body[i].ConsensusStmt? { SingleTurn(ir, env, sc.body, i); }
    match sc.body[i]
    case StepStmt(ref) => StepIff(ir, env, sc, st, ref, i + 1);
    case RefStmt(name) => StepIff(ir, env, sc, st, name, i + 1);
    case ParallelStmt(members) => GroupIff(ir, env, sc, st, members);
    case ConsensusStmt(_, _, _) => VoteIff(ir, env, sc, st, i);
    case IfStmt(_, _, _, _) => IfAlone(ir, env, sc.body, i);
    case _ =>
  }

  lemma SingleTurn(ir: IR, env: Environment, body: seq<Stmt>, i: nat)
    requires i < |body| && !body[i].ConsensusStmt?
    ensures After(body, i) == i + 1 && (TurnBuilds(ir, env, body, i) <==> StmtBuilds(ir, env, body, i))
  {
    hide StmtBuilds;
  }

  lemma IfAlone(ir: IR, env: Environment, body: seq<Stmt>, i: nat)
    requires i < |body| && body[i].IfStmt? && !(i > 0 && body[i - 1].ConsensusStmt?)
    ensures !StmtBuilds(ir, env, body, i) && !TurnBuilds(ir, env, body, i)
  {
    assert i <= i < After(body, i);
  }

  predicate RestBuilds(ir: IR, env: Environment, body: seq<Stmt>, i: nat) {
    forall k | i <= k < |body| :: StmtBuilds(ir, env, body, k)
  }

  lemma RestSplits(ir: IR, env: Environment, body: seq<Stmt>, i: nat)
    requires i < |body|
    ensures RestBuilds(ir, env, body, i) <==> TurnBuilds(ir, env, body, i) && RestBuilds(ir, env, body, After(body, i))
  {
    hide StmtBuilds;
  }

  lemma {:induction false} WalkIff(ir: IR, env: Environment, sc: Scope, st: Building, i: nat)
    requires ir.workflow.Some? && Scoped(ir, env, sc) && StandsAt(sc.body, i, st) && LetsResolve(sc.body, |sc.body|)
    ensures Walk(sc, i, st).Success? <==> RestBuilds(ir, env, sc.body, i)
    decreases |sc.body| - i
  {
    hide Add, Scoped, LetsResolve, StandsAt, RestBuilds, TurnBuilds;
    Standing(sc.body, i, st);
    if i < |sc.body| {
      TurnIff(ir, env, sc, st, i);
      RestSplits(ir, env, sc.body, i);
      if Add(sc, st, i).Success? { WalkIff(ir, env, sc, Add(sc, st, i).value, After(sc.body, i)); }
    } else {
      RestOfNothing(ir, env, sc.body);
    }
  }

  lemma Standing(body: seq<Stmt>, i: nat, st: Building)
    requires StandsAt(body, i, st)
    ensures i <= |body|
  {
  }

  lemma RestOfNothing(ir: IR, env: Environment, body: seq<Stmt>)
    ensures RestBuilds(ir, env, body, |body|)
  {
  }

  lemma LetsBuild(ir: IR, env: Environment)
    requires ir.workflow.Some? && RestBuilds(ir, env, ir.workflow.value.body, 0)
    ensures LetsResolve(ir.workflow.value.body, |ir.workflow.value.body|)
  {
    var body := ir.workflow.value.body;
    forall i | 0 <= i < |body| && body[i].LetStmt? ensures HasArtifact(body, body[i].artifact) {
      assert StmtBuilds(ir, env, body, i);
    }
  }

  /** Building succeeds exactly for the buildable. */
  lemma BuildsIff(ir: IR, env: Environment)
    requires ir.workflow.Some?
    ensures Compile(ir, env).Success? <==> Buildable(ir, env)
  {
    hide AgentBuilds, StmtBuilds, LetsResolve, AgentsBuild, Aliases;
    var body := ir.workflow.value.body;
    assert Buildable(ir, env) <==> AgentsBuild(env, ir.provider, ir.agents, 0) && RestBuilds(ir, env, body, 0) by { BuildableParts(ir, env); }
    if RestBuilds(ir, env, body, 0) { LetsBuild(ir, env); }
    if LetsResolve(body, |body|) {
      AgentsBuildIff(env, ir.provider, ir.agents, 0, map[]);
      var agents := AgentsFrom(env, ir.provider, ir.agents, 0, map[]);
      if agents.Success? { ScopeIsScoped(ir, env); WalkIff(ir, env, ScopeOf(ir, env, agents.value), NOTHING, 0); }
    }
  }

  lemma BuildableParts(ir: IR, env: Environment)
    requires ir.workflow.Some?
    ensures Buildable(ir, env) <==> AgentsBuild(env, ir.provider, ir.agents, 0) && RestBuilds(ir, env, ir.workflow.value.body, 0)
  {
    hide AgentBuilds, StmtBuilds;
  }

  // ---------------------------------------------------------------- what a strategy word stands for

  /** A value the votes were reduced to, and what the strategy reported with it. */
  datatype Chosen = Chosen(value: Value, metadata: Option<map<string, Meta>>)

  /**
   What a consensus statement makes of the votes: with `majority` the first output of the kind with strictly
   the most votes, with `unanimous` the first output if all are equal, and with `judge` what the judge of
   the file's provider, in the stated mode or else synthesizing, says.
   */
  ghost function Reduced(ir: IR, env: Environment, s: Stmt, id: nat, votes: seq<Value>): Option<Chosen>
    requires s.ConsensusStmt?
  {
    if s.strategy == "majority" then
      if AllHashable(votes) && exists i: nat :: Wins(votes, i) then
        var i: nat :| Wins(votes, i);
        Some(Chosen(votes[i], None))
      else None
    else if s.strategy == "unanimous" then
      if AllHashable(votes) && votes != [] && forall i | 0 <= i < |votes| :: Same(votes[i], votes[0])
      then Some(Chosen(votes[0], None)) else None
    else if s.strategy == "judge" && ir.provider.Some? then
      match env.judge(ir.provider.value, if s.mode == Some("select") then "select" else "synthesize", s.confidence)(id, votes)
      case Agreed(value, metadata) => Some(Chosen(value, metadata))
      case Disagreed(_) => None
    else None
  }

  lemma MajorityIs(votes: seq<Value>)
    ensures var agrees := AllHashable(votes) && exists i: nat :: Wins(votes, i);
      && (Majority(votes).Agreed? <==> agrees)
      && forall i: nat | AllHashable(votes) && Wins(votes, i) :: Majority(votes) == Agreed(votes[i], None)
  {
    hide Majority, FirstOfKind, Votes, Same;
    if AllHashable(votes) {
      MajorityIffWinner(votes);
      forall i: nat | Wins(votes, i) ensures i < |votes| { WinsWithin(votes, i); }
    } else {
      UnhashableRefused(votes);
    }
  }

  /** The resolved strategy agrees exactly where the word does, on the same value. */
  lemma StrategyIs(ir: IR, env: Environment, s: Stmt, id: nat, votes: seq<Value>)
    requires s.ConsensusStmt? && ResolveStrategy(env, ir.provider, s).Success?
    ensures match ResolveStrategy(env, ir.provider, s).value(id, votes)
      case Agreed(value, metadata) => Reduced(ir, env, s, id, votes) == Some(Chosen(value, metadata))
      case Disagreed(_) => Reduced(ir, env, s, id, votes) == None
  {
    hide Majority, Unanimous, Wins, Same;
    if s.strategy == "majority" {
      MajorityIs(votes);
    } else if s.strategy == "unanimous" {
      if AllHashable(votes) { UnanimousIff(votes); } else { UnhashableRefused(votes); }
    }
  }

  lemma UnhashableRefused(votes: seq<Value>)
    requires !AllHashable(votes)
    ensures Majority(votes).Disagreed? && Unanimous(votes).Disagreed?
  {
    hide Hashed, Counter, Ranked, Distinct;
  }

  // ---------------------------------------------------------------- one entry per node

  predicate IsNode(s: Stmt) {
    s.StepStmt? || s.RefStmt? || s.ParallelStmt? || s.ConsensusStmt?
  }

  /** Where the statements that become entries stand, among the first n. */
  function Places(body: seq<Stmt>, n: nat): (places: seq<nat>)
    requires n <= |body|
    ensures forall k | 0 <= k < |places| :: places[k] < n && IsNode(body[places[k]])
  {
    if n == 0 then [] else Places(body, n - 1) + if IsNode(body[n - 1]) then [n - 1] else []
  }

  /** The let that names this artifact: the last one. */
  function LastLet(body: seq<Stmt>, n: nat, artifact: string): Option<string>
    requires n <= |body|
  {
    if n == 0 then None
    else if body[n - 1].LetStmt? && body[n - 1].artifact == artifact then Some(body[n - 1].name)
    else LastLet(body, n - 1, artifact)
  }

  /** The name that an artifact statement at k gives to what stands before it. */
  function NameAt(body: seq<Stmt>, k: nat): Option<string> {
    if k < |body| && body[k].ArtifactStmt? then
      var alias := LastLet(body, |body|, body[k].name);
      Some(if alias.Some? then alias.value else body[k].name)
    else None
  }

  lemma {:induction false} AliasIsLastLet(body: seq<Stmt>, n: nat, artifact: string)
    requires n <= |body|
    ensures artifact in Aliases(body, n) <==> LastLet(body, n, artifact).Some?
    ensures artifact in Aliases(body, n) ==> Aliases(body, n)[artifact] == LastLet(body, n, artifact).value
    decreases n
  {
    if n > 0 { AliasIsLastLet(body, n - 1, artifact); }
  }

  lemma NameIs(body: seq<Stmt>, k: nat)
    ensures BindingAt(body, Aliases(body, |body|), k) == NameAt(body, k)
  {
    if k < |body| && body[k].ArtifactStmt? { AliasIsLastLet(body, |body|, body[k].name); }
  }

  /** The decimal is the number. */
  predicate IsNumber(x: real, d: Decimal) {
    x * Power10(d.scale) as real == d.mantissa as real
  }

  lemma ToRealIs(d: Decimal)
    ensures IsNumber(ToReal(d), d)
  {
  }

  /** The entry of a step: the tool of that name, under the name an artifact right after it gives. */
  ghost predicate SingleOf(ir: IR, env: Environment, body: seq<Stmt>, e: Entry, name: string, p: nat) {
    e.step.Single? && Named(ir, env, name) == Some(e.step.tool) && e.asName == NameAt(body, p + 1) && e.agent == None
  }

  /** The entry of a parallel block: its members' tools in order. */
  ghost predicate ParallelOf(ir: IR, env: Environment, e: Entry, members: seq<string>) {
    && e.step.Parallel? && e.asName == None && e.agent == None
    && |e.step.tools| == |members| && forall m | 0 <= m < |members| :: Named(ir, env, members[m]) == Some(e.step.tools[m])
  }

  /** The strategy reduces any votes to what the statement makes of them. */
  ghost predicate Reduces(ir: IR, env: Environment, s: Stmt, strategy: Strategy)
    requires s.ConsensusStmt?
  {
    forall id: nat, votes :: match strategy(id, votes)
      case Agreed(value, metadata) => Reduced(ir, env, s, id, votes) == Some(Chosen(value, metadata))
      case Disagreed(_) => Reduced(ir, env, s, id, votes) == None
  }

  /** The `if` that follows a consensus, as its fallback. */
  ghost predicate FallbackOf(ir: IR, env: Environment, body: seq<Stmt>, p: nat, fallback: Option<Fallback>) {
    if p + 1 < |body| && body[p + 1].IfStmt? then
      var test := body[p + 1];
      && |test.then_| == 1 && test.then_[0].RefStmt?
      && fallback.Some? && Named(ir, env, test.then_[0].name) == Some(fallback.value.tool)
      && fallback.value.field == test.field && IsNumber(fallback.value.below, test.value)
    else fallback.None?
  }

  /** The entry of a consensus: it reuses the block just before, and an artifact after it or after its `if` names it. */
  ghost predicate VoteEntryOf(ir: IR, env: Environment, body: seq<Stmt>, before: Entry, e: Entry, p: nat)
    requires p < |body| && body[p].ConsensusStmt?
  {
    && before.step.Parallel? && e.step.Consensus? && e.agent == None
    && e.step.source == Some(before.step.id) && e.step.tools == before.step.tools && e.step.name == "consensus"
    && Reduces(ir, env, body[p], e.step.strategy) && FallbackOf(ir, env, body, p, e.step.fallback)
    && e.asName == NameAt(body, if p + 1 < |body| && body[p + 1].IfStmt? then p + 2 else p + 1)
  }

  /** The k-th entry is what the statement at p says. */
  ghost predicate EntryOf(ir: IR, env: Environment, body: seq<Stmt>, entries: seq<Entry>, k: nat, p: nat)
    requires k < |entries| && p < |body|
  {
    match body[p]
    case StepStmt(ref) => SingleOf(ir, env, body, entries[k], ref, p)
    case RefStmt(name) => SingleOf(ir, env, body, entries[k], name, p)
    case ParallelStmt(members) => ParallelOf(ir, env, entries[k], members)
    case ConsensusStmt(_, _, _) => k > 0 && VoteEntryOf(ir, env, body, entries[k - 1], entries[k], p)
    case _ => false
  }

  ghost predicate EntriesOf(ir: IR, env: Environment, body: seq<Stmt>, entries: seq<Entry>, n: nat) {
    && n <= |body| && |entries| == |Places(body, n)|
    && forall k | 0 <= k < |entries| :: EntryOf(ir, env, body, entries, k, Places(body, n)[k])
  }

  /** Every group built so far has its own number. */
  predicate Numbered(entries: seq<Entry>, next: GroupId) {
    && (forall j | 0 <= j < |entries| && !entries[j].step.Single? :: entries[j].step.id < next)
    && forall j, k | 0 <= j < k < |entries| && !entries[j].step.Single? && !entries[k].step.Single? :: entries[j].step.id != entries[k].step.id
  }

  /** What is built is what the statements before i say, and the pending block is the last entry. */
  ghost predicate Made(ir: IR, env: Environment, body: seq<Stmt>, st: Building, i: nat) {
    && EntriesOf(ir, env, body, st.steps, i) && Numbered(st.steps, st.nextGroup)
    && (st.pending.Some? ==> st.steps != [] && st.steps[|st.steps| - 1].step == Step.Parallel(st.pending.value.id, st.pending.value.tools))
  }

  /** The entry for the statement at i, if it is a node, joins the others. */
  lemma EntriesSnoc(ir: IR, env: Environment, body: seq<Stmt>, entries: seq<Entry>, e: Entry, i: nat)
    requires EntriesOf(ir, env, body, entries, i) && i < |body| && IsNode(body[i])
    requires EntryOf(ir, env, body, entries + [e], |entries|, i)
    ensures EntriesOf(ir, env, body, entries + [e], i + 1)
  {
    hide SingleOf, ParallelOf, VoteEntryOf, IsNode;
    var more, places := entries + [e], Places(body, i + 1);
    assert places == Places(body, i) + [i];
    forall k | 0 <= k < |more| ensures EntryOf(ir, env, body, more, k, places[k]) {
      if k < |entries| { assert EntryOf(ir, env, body, entries, k, Places(body, i)[k]); }
    }
  }

  lemma EntriesSkip(ir: IR, env: Environment, body: seq<Stmt>, entries: seq<Entry>, i: nat)
    requires EntriesOf(ir, env, body, entries, i) && i < |body| && !IsNode(body[i])
    ensures EntriesOf(ir, env, body, entries, i + 1)
  {
    hide EntryOf, IsNode;
    var i' := i + 1;
    assert Places(body, i') == Places(body, i);
  }

  lemma NumberedSnoc(entries: seq<Entry>, e: Entry, next: GroupId, next': GroupId)
    requires Numbered(entries, next) && next <= next' && (e.step.Single? || (e.step.id == next && next < next'))
    ensures Numbered(entries + [e], next')
  {
  }

  lemma StepMakes(ir: IR, env: Environment, sc: Scope, st: Building, i: nat, name: string)
    requires ir.workflow.Some? && Scoped(ir, env, sc) && i < |sc.body| && Made(ir, env, sc.body, st, i)
    requires sc.body[i] == StepStmt(name) || sc.body[i] == RefStmt(name)
    requires AddStep(sc, st, name, i + 1).Success?
    ensures Made(ir, env, sc.body, AddStep(sc, st, name, i + 1).value, i + 1)
  {
    hide Resolve, Named, BindingAt, NameAt, EntriesOf, Numbered, Aliases;
    ResolveIff(ir, env, sc, name);
    NameIs(sc.body, i + 1);
    var more := AddStep(sc, st, name, i + 1).value;
    var e := more.steps[|st.steps|];
    EntriesSnoc(ir, env, sc.body, st.steps, e, i);
    NumberedSnoc(st.steps, e, st.nextGroup, st.nextGroup);
  }

  lemma GroupMakes(ir: IR, env: Environment, sc: Scope, st: Building, i: nat)
    requires ir.workflow.Some? && Scoped(ir, env, sc) && i < |sc.body| && Made(ir, env, sc.body, st, i)
    requires sc.body[i].ParallelStmt? && AddGroup(sc, st, sc.body[i].members).Success?
    ensures Made(ir, env, sc.body, AddGroup(sc, st, sc.body[i].members).value, i + 1)
  {
    hide Resolve, Named, EntriesOf, Numbered;
    var members := sc.body[i].members;
    ResolveAllIff(ir, env, sc, members, 0, []);
    var more := AddGroup(sc, st, members).value;
    var e := more.steps[|st.steps|];
    assert ParallelOf(ir, env, e, members);
    EntriesSnoc(ir, env, sc.body, st.steps, e, i);
    NumberedSnoc(st.steps, e, st.nextGroup, st.nextGroup + 1);
  }

  lemma FallbackIs(ir: IR, env: Environment, sc: Scope, i: nat)
    requires ir.workflow.Some? && Scoped(ir, env, sc) && i < |sc.body| && sc.body[i].ConsensusStmt?
    requires FoldedFallback(env, sc.agents, sc.body, i).Success?
    ensures FallbackOf(ir, env, sc.body, i, FoldedFallback(env, sc.agents, sc.body, i).value)
  {
    hide Resolve, Named, ToReal, IsNumber, Scoped;
    ScopedParts(ir, env, sc);
    if HasFold(sc.body, i) {
      var test := sc.body[i + 1];
      ToRealIs(test.value);
      if |test.then_| == 1 && test.then_[0].RefStmt? { ResolveIff(ir, env, sc, test.then_[0].name); }
    }
  }

  lemma ScopedParts(ir: IR, env: Environment, sc: Scope)
    requires ir.workflow.Some? && Scoped(ir, env, sc)
    ensures sc.env == env && sc.default_ == ir.provider && sc.body == ir.workflow.value.body && sc.aliases == Aliases(sc.body, |sc.body|)
  {
  }

  lemma StrategyReduces(ir: IR, env: Environment, s: Stmt)
    requires s.ConsensusStmt? && ResolveStrategy(env, ir.provider, s).Success?
    ensures Reduces(ir, env, s, ResolveStrategy(env, ir.provider, s).value)
  {
    hide ResolveStrategy, Reduced;
    forall id: nat, votes ensures match ResolveStrategy(env, ir.provider, s).value(id, votes)
      case Agreed(value, metadata) => Reduced(ir, env, s, id, votes) == Some(Chosen(value, metadata))
      case Disagreed(_) => Reduced(ir, env, s, id, votes) == None
    {
      StrategyIs(ir, env, s, id, votes);
    }
  }

  lemma VoteMakes(ir: IR, env: Environment, sc: Scope, st: Building, i: nat)
    requires ir.workflow.Some? && Scoped(ir, env, sc) && i < |sc.body| && Made(ir, env, sc.body, st, i)
    requires sc.body[i].ConsensusStmt? && AddVote(sc, st, i).Success?
    ensures Made(ir, env, sc.body, AddVote(sc, st, i).value, After(sc.body, i))
  {
    hide ResolveStrategy, FoldedFallback, FallbackOf, BindingAt, NameAt, EntriesOf, Numbered, Reduces, Aliases, Scoped;
    ScopedParts(ir, env, sc);
    StrategyReduces(ir, env, sc.body[i]);
    FallbackIs(ir, env, sc, i);
    NameIs(sc.body, After(sc.body, i));
    var more := AddVote(sc, st, i).value;
    var e := more.steps[|st.steps|];
    assert (st.steps + [e])[|st.steps| - 1] == st.steps[|st.steps| - 1];
    EntriesSnoc(ir, env, sc.body, st.steps, e, i);
    NumberedSnoc(st.steps, e, st.nextGroup, st.nextGroup + 1);
    if HasFold(sc.body, i) { EntriesSkip(ir, env, sc.body, more.steps, i + 1); }
  }

  lemma AddMakes(ir: IR, env: Environment, sc: Scope, st: Building, i: nat)
    requires ir.workflow.Some? && Scoped(ir, env, sc) && i < |sc.body| && Add(sc, st, i).Success? && Made(ir, env, sc.body, st, i)
    ensures Made(ir, env, sc.body, Add(sc, st, i).value, After(sc.body, i))
  {
    hide AddStep, AddGroup, AddVote, EntriesOf, Numbered, Scoped;
    match sc.body[i]
    case StepStmt(ref) => StepMakes(ir, env, sc, st, i, ref);
    case RefStmt(name) => StepMakes(ir, env, sc, st, i, name);
    case ParallelStmt(_) => GroupMakes(ir, env, sc, st, i);
    case ConsensusStmt(_, _, _) => VoteMakes(ir, env, sc, st, i);
    case ArtifactStmt(_, _, _) => EntriesSkip(ir, env, sc.body, st.steps, i);
    case LetStmt(_, _) => EntriesSkip(ir, env, sc.body, st.steps, i);
    case _ =>
  }

  lemma {:induction false} WalkMakes(ir: IR, env: Environment, sc: Scope, st: Building, i: nat)
    requires ir.workflow.Some? && Scoped(ir, env, sc) && i <= |sc.body| && Walk(sc, i, st).Success? && Made(ir, env, sc.body, st, i)
    ensures Made(ir, env, sc.body, Walk(sc, i, st).value, |sc.body|)
    decreases |sc.body| - i
  {
    hide Add, Scoped, Made;
    if i < |sc.body| {
      AddMakes(ir, env, sc, st, i);
      WalkMakes(ir, env, sc, Add(sc, st, i).value, After(sc.body, i));
    }
  }

  lemma NothingMade(ir: IR, env: Environment, body: seq<Stmt>)
    ensures Made(ir, env, body, NOTHING, 0)
  {
  }

  /**
   The built workflow has exactly one entry per step, reference, parallel and consensus node, in order, and
   each is exactly what its node says: tools, names, strategy, fallback, reused block; every group has its
   own number.
   */
  lemma OneEntryPerNode(ir: IR, env: Environment)
    requires ir.workflow.Some? && Compile(ir, env).Success?
    ensures var entries, body := Compile(ir, env).value, ir.workflow.value.body;
      EntriesOf(ir, env, body, entries, |body|)
      && forall j, k | 0 <= j < k < |entries| && !entries[j].step.Single? && !entries[k].step.Single? :: entries[j].step.id != entries[k].step.id
  {
    hide LetsResolve, Aliases, EntriesOf, Scoped, Walk;
    ScopeIsScoped(ir, env);
    var agents := AgentsFrom(env, ir.provider, ir.agents, 0, map[]).value;
    NothingMade(ir, env, ir.workflow.value.body);
    WalkMakes(ir, env, ScopeOf(ir, env, agents), NOTHING, 0);
  }

  // ---------------------------------------------------------------- the policy

  predicate IsNumberOrNone(x: Option<real>, d: Option<Decimal>) {
    match d
    case None => x.None?
    case Some(n) => x.Some? && IsNumber(x.value, n)
  }

  /** The policy a file builds: no agent is required, every limit is the number written, and the named tools need approval. */
  lemma PolicyIs(p: PolicyIR)
    ensures var policy := PolicyOf(p);
      && !policy.requireAgent
      && (match p.maxParallel case None => policy.maxParallel.None? case Some(n) => policy.maxParallel == Some(n as int))
      && IsNumberOrNone(policy.maxCost, p.maxCost) && IsNumberOrNone(policy.maxRuntime, p.maxRuntime)
      && forall name :: name in policy.approvalFor <==> name in p.approvalFor
  {
    hide ToReal, IsNumber;
    if p.maxCost.Some? { ToRealIs(p.maxCost.value); }
    if p.maxRuntime.Some? { ToRealIs(p.maxRuntime.value); }
  }
}
