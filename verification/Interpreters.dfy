/**
 What an AirLang body means: a direct left-to-right interpreter of the representation, which knows
 nothing of entries, groups or the scheduler, and the proof that the built workflow does what it says.
 */
module Interpreters {
  import opened Wrappers
  import opened Values
  import opened Runtime
  import opened Merges
  import opened Blocks
  import opened Measures
  import opened Workers
  import opened Plans
  import opened Decimals
  import opened Grammars
  import opened Workflows
  import opened Compilers
  import opened CompilerLaws
  import opened ReuseLaws
  import opened Resume
  import opened WorkerLaws
  import opened StepRecords

  /** What interpreting a body gives: how it ended, the names bound, and the outputs node by node. */
  datatype Meaning = Meaning(success: bool, bindings: Bindings, outputs: seq<seq<Value>>)

  /** What stays the same while a body is interpreted. */
  datatype Context = Context(ir: IR, env: Environment, body: seq<Stmt>, world: World)

  /** A name, called as step `id`: what it stands for, after the approval the file asks for, with its retries. */
  function Call(c: Context, name: string, id: nat, b: Bindings): Option<Value> {
    match Named(c.ir, c.env, name)
    case None => None
    case Some(tool) =>
      if tool.name in c.ir.policy.approvalFor && !c.world.approve(id, tool.name) then None
      else match tool.execute(id, b, Tries(tool, id, b, 0) - 1)
        case Returned(v) => Some(v)
        case Raised(_) => None
  }

  /** All of them on the same bindings, or None if any fails. */
  function CallAll(c: Context, names: seq<string>, id: nat, b: Bindings): Option<seq<Value>> {
    if names == [] then Some([])
    else
      var before := CallAll(c, names[..|names| - 1], id, b);
      var last := Call(c, names[|names| - 1], id + |names| - 1, b);
      if before.Some? && last.Some? then Some(before.value + [last.value]) else None
  }

  /** An artifact statement at k gives its name, or its let name, to the value before it. */
  function Bound(body: seq<Stmt>, k: nat, b: Bindings, v: Value): Bindings {
    match NameAt(body, k)
    case None => b
    case Some(name) => b[name := v]
  }

  predicate Below(x: real, d: Decimal) {
    x * Power10(d.scale) as real < d.mantissa as real
  }

  /** The fallback is due: the strategy reported a number, or a truth value as one, below the tested one in the tested field. */
  predicate Due(test: Stmt, metadata: Option<map<string, Meta>>)
    requires test.IfStmt?
  {
    metadata.Some? && test.field in metadata.value &&
    match metadata.value[test.field]
    case Number(x) => Below(x, test.value)
    case Flag(truth) => Below(if truth then 1.0 else 0.0, test.value)
    case Other(_) => false
  }

  /** An `if` right after the statement at i belongs to it. */
  predicate HasTest(body: seq<Stmt>, i: nat) {
    i + 1 < |body| && body[i + 1].IfStmt?
  }

  /** The statement after the vote at i and the `if` that belongs to it. */
  function Past(body: seq<Stmt>, i: nat): (k: nat)
    requires i < |body|
    ensures i < k <= |body|
  {
    if HasTest(body, i) then i + 2 else i + 1
  }

  /** From the statement at i on: bindings, next step id, the outputs of the parallel block just before, outputs so far. */
  ghost function Interpret(c: Context, i: nat, b: Bindings, id: nat, votes: Option<seq<Value>>, outputs: seq<seq<Value>>): Meaning
    requires i <= |c.body|
    decreases |c.body| - i
  {
    if i == |c.body| then Meaning(true, b, outputs)
    else match c.body[i]
      case StepStmt(ref) => InterpretStep(c, i, ref, b, id, outputs)
      case RefStmt(name) => InterpretStep(c, i, name, b, id, outputs)
      case ParallelStmt(members) =>
        var values := CallAll(c, members, id, b);
        if values.None? then Meaning(false, b, outputs)
        else Interpret(c, i + 1, b, id + |members|, values, outputs + [values.value])
      case ConsensusStmt(_, _, _) => InterpretVote(c, i, b, id, votes, outputs)
      case _ => Interpret(c, i + 1, b, id, None, outputs)
  }

  ghost function InterpretStep(c: Context, i: nat, name: string, b: Bindings, id: nat, outputs: seq<seq<Value>>): Meaning
    requires i < |c.body|
    decreases |c.body| - i, 0
  {
    var v := Call(c, name, id, b);
    if v.None? then Meaning(false, b, outputs)
    else Interpret(c, i + 1, Bound(c.body, i + 1, b, v.value), id + 1, None, outputs + [[v.value]])
  }

  ghost function InterpretVote(c: Context, i: nat, b: Bindings, id: nat, votes: Option<seq<Value>>, outputs: seq<seq<Value>>): Meaning
    requires i < |c.body| && c.body[i].ConsensusStmt?
    decreases |c.body| - i, 0
  {
    var k := Past(c.body, i);
    if votes.None? then Meaning(false, b, outputs)
    else match Reduced(c.ir, c.env, c.body[i], id, votes.value)
      case None => Meaning(false, b, outputs)
      case Some(Chosen(value, metadata)) =>
        if HasTest(c.body, i) && Due(c.body[i + 1], metadata) && |c.body[i + 1].then_| == 1 && c.body[i + 1].then_[0].RefStmt? then
          var rescue := Call(c, c.body[i + 1].then_[0].name, id + 1, b);
          if rescue.None? then Meaning(false, b, outputs)
          else Interpret(c, k, Bound(c.body, k, b, value), id + 2, None, outputs + [[value, rescue.value]])
        else Interpret(c, k, Bound(c.body, k, b, value), id + 1, None, outputs + [[value]])
  }

  // ---------------------------------------------------------------- names

  /** The scheduler binds the name the interpreter binds. */
  lemma BindsAlike(sc: Scope, k: nat, b: Bindings, v: Value)
    requires sc.aliases == Aliases(sc.body, |sc.body|)
    ensures Bind(b, BindingAt(sc.body, sc.aliases, k), Some(v)) == Bound(sc.body, k, b, v)
  {
    hide BindingAt, NameAt, Aliases;
    NameIs(sc.body, k);
  }

  // ---------------------------------------------------------------- the simulation

  /** The workflow run without limits, from the start, with no store. */
  ghost predicate Plainly(cfg: Config) {
    Unlimited(cfg) && cfg.checkpoint == map[] && !cfg.storing
  }

  ghost predicate Suits(c: Context, sc: Scope, cfg: Config) {
    && c.ir.workflow.Some? && Scoped(c.ir, c.env, sc) && c.body == sc.body
    && c.world == cfg.world && forall name :: name in cfg.policy.approvalFor <==> name in c.ir.policy.approvalFor
  }

  lemma SuitsParts(c: Context, sc: Scope, cfg: Config)
    requires Suits(c, sc, cfg)
    ensures c.ir.workflow.Some? && Scoped(c.ir, c.env, sc) && c.env == sc.env && c.ir.provider == sc.default_
    ensures c.body == sc.body && sc.aliases == Aliases(sc.body, |sc.body|)
  {
    ScopedParts(c.ir, c.env, sc);
  }

  /** A resolved tool's run under the built policy gives what its name, called, gives. */
  lemma CallIs(c: Context, sc: Scope, cfg: Config, name: string, tool: Tool, id: nat, group: Option<GroupId>, b: Bindings, sink: bool)
    requires Suits(c, sc, cfg) && Resolve(sc.env, sc.agents, name) == Success(tool)
    ensures ToolRun(cfg.policy, cfg.world, tool, None, id, group, b, sink).output == Call(c, name, id, b)
  {
    hide ToolRun, Resolve, Named, Scoped, Tries;
    SuitsParts(c, sc, cfg);
    ResolveIff(c.ir, c.env, sc, name);
    OutputIs(cfg.policy, cfg.world, tool, None, id, group, b, sink);
  }

  /** The scheduler's state between entries is the interpreter's between statements. */
  ghost predicate InStep(bd: Building, st: Progress, b: Bindings, id: nat, votes: Option<seq<Value>>, outputs: seq<seq<Value>>) {
    && st.bindings == b && st.next == id && st.outputs == outputs
    && (bd.pending.Some? <==> votes.Some?)
    && (bd.pending.Some? ==> bd.pending.value.id in st.cache && st.cache[bd.pending.value.id] == votes.value)
  }

  predicate EndsAs(r: RunResult, m: Meaning) {
    r.ending == Finished(m.success) && r.state.bindings == m.bindings && r.state.outputs == m.outputs
  }

  lemma PlainTurn(cfg: Config, k: nat, st: Progress)
    requires Plainly(cfg) && k < |cfg.entries|
    ensures var run := RunEntry(cfg, cfg.entries[k], st.next, st.bindings, st.cache);
      var st' := Advance(st, cfg.entries[k], run);
      Remaining(cfg, k, st) == if run.ok then Remaining(cfg, k + 1, st') else Finish(st', false)
  {
    hide RunEntry, Advance, Remaining, Finish;
    RemainingTurn(cfg, k, st);
  }

  lemma FailedAdvance(st: Progress, e: Entry, run: EntryRun)
    requires !run.ok
    ensures EndsAs(Finish(Advance(st, e, run), false), Meaning(false, st.bindings, st.outputs))
  {
    hide Measure;
  }

  lemma GoodAdvance(st: Progress, e: Entry, run: EntryRun)
    requires run.ok
    ensures var st' := Advance(st, e, run);
      && st'.next == run.next && st'.bindings == Bind(st.bindings, e.asName, run.bound) && st'.outputs == st.outputs + [run.outputs]
      && st'.cache == CacheAfter(st.cache, e, run)
  {
    hide Measure;
  }

  /** A single entry does what its name, called, does. */
  lemma SingleAlike(c: Context, sc: Scope, cfg: Config, e: Entry, name: string, next: nat, b: Bindings, cache: map<GroupId, seq<Value>>)
    requires Suits(c, sc, cfg) && Resolve(sc.env, sc.agents, name).Success?
    requires e.step == Single(Resolve(sc.env, sc.agents, name).value) && e.agent.None?
    ensures var run, v := RunEntry(cfg, e, next, b, cache), Call(c, name, next, b);
      && (run.ok <==> v.Some?) && run.next == next + 1 && run.bound == v && (v.Some? ==> run.outputs == [v.value])
  {
    hide ToolRun, Call, Resolve, Suits;
    CallIs(c, sc, cfg, name, e.step.tool, next, None, b, true);
  }

  lemma {:induction false} ResolvedAll(env: Environment, agents: Agents, names: seq<string>, n: nat, acc: seq<Tool>)
    requires n <= |names| && |acc| == n && ResolveFrom(env, agents, names, n, acc).Success?
    ensures var tools := ResolveFrom(env, agents, names, n, acc).value;
      && |tools| == |names| && acc == tools[..n]
      && forall k | n <= k < |names| :: Resolve(env, agents, names[k]) == Success(tools[k])
    decreases |names| - n
  {
    hide Resolve;
    if n < |names| { ResolvedAll(env, agents, names, n + 1, acc + [Resolve(env, agents, names[n]).value]); }
  }

  /** A member of a group gives what its name, called, gives. */
  lemma MemberAlike(c: Context, sc: Scope, cfg: Config, names: seq<string>, tools: seq<Tool>, first: nat, gid: GroupId, b: Bindings, k: nat)
    requires Suits(c, sc, cfg) && |tools| == |names| && k < |names| && Resolve(sc.env, sc.agents, names[k]) == Success(tools[k])
    ensures MemberRuns(cfg, tools, None, first, gid, b)[k].output == Call(c, names[k], first + k, b)
  {
    hide ToolRun, Call, Resolve, Suits;
    CallIs(c, sc, cfg, names[k], tools[k], first + k, Some(gid), b, true);
  }

  lemma {:induction false} CallAllIs(c: Context, names: seq<string>, id: nat, b: Bindings)
    ensures CallAll(c, names, id, b).Some? <==> forall k | 0 <= k < |names| :: Call(c, names[k], id + k, b).Some?
    ensures CallAll(c, names, id, b).Some? ==>
      var vs := CallAll(c, names, id, b).value;
      |vs| == |names| && forall k | 0 <= k < |names| :: Call(c, names[k], id + k, b) == Some(vs[k])
    decreases |names|
  {
    hide Call;
    if names != [] {
      var init := names[..|names| - 1];
      CallAllIs(c, init, id, b);
      var all := CallAll(c, names, id, b).Some?;
      assert all <==> CallAll(c, init, id, b).Some? && Call(c, names[|names| - 1], id + |names| - 1, b).Some?;
      forall k | 0 <= k < |init| ensures init[k] == names[k] {}
      if forall k | 0 <= k < |names| :: Call(c, names[k], id + k, b).Some? {
        assert Call(c, names[|names| - 1], id + (|names| - 1), b).Some?;
        assert id + |names| - 1 == id + (|names| - 1);
      }
    }
  }

  /** A group's outputs are those of its names. */
  lemma GroupAlike(c: Context, sc: Scope, cfg: Config, names: seq<string>, tools: seq<Tool>, first: nat, gid: GroupId, b: Bindings)
    requires Suits(c, sc, cfg) && ResolveFrom(sc.env, sc.agents, names, 0, []) == Success(tools)
    ensures var runs, vs := MemberRuns(cfg, tools, None, first, gid, b), CallAll(c, names, first, b);
      |tools| == |names| && (AllSucceeded(runs) <==> vs.Some?) && (vs.Some? ==> Outputs(runs) == vs.value)
  {
    hide ToolRun, Suits, Call, Resolve;
    var runs := MemberRuns(cfg, tools, None, first, gid, b);
    ResolvedAll(sc.env, sc.agents, names, 0, []);
    CallAllIs(c, names, first, b);
    forall k | 0 <= k < |names| ensures runs[k].output == Call(c, names[k], first + k, b) {
      MemberAlike(c, sc, cfg, names, tools, first, gid, b, k);
    }
    if CallAll(c, names, first, b).Some? { assert Outputs(runs) == CallAll(c, names, first, b).value; }
  }

  lemma ParallelAlike(c: Context, sc: Scope, cfg: Config, e: Entry, names: seq<string>, next: nat, b: Bindings, cache: map<GroupId, seq<Value>>)
    requires Suits(c, sc, cfg) && e.step.Parallel? && e.agent.None?
    requires ResolveFrom(sc.env, sc.agents, names, 0, []) == Success(e.step.tools)
    ensures var run, vs := RunEntry(cfg, e, next, b, cache), CallAll(c, names, next, b);
      && (run.ok <==> vs.Some?) && run.next == next + |names| && run.bound.None?
      && (vs.Some? ==> run.outputs == vs.value && run.cached == vs)
  {
    hide MemberRuns, Members, Suits;
    GroupAlike(c, sc, cfg, names, e.step.tools, next, e.step.id, b);
  }

  /** The step a consensus statement compiles to. */
  ghost predicate VoteOf(sc: Scope, i: nat, step: Step, pending: Pending)
    requires i < |sc.body| && sc.body[i].ConsensusStmt?
  {
    && step.Consensus? && step.source == Some(pending.id) && step.tools == pending.tools
    && ResolveStrategy(sc.env, sc.default_, sc.body[i]) == Success(step.strategy)
    && FoldedFallback(sc.env, sc.agents, sc.body, i) == Success(step.fallback)
  }

  lemma BelowIs(x: real, d: Decimal)
    ensures x < ToReal(d) <==> Below(x, d)
  {
  }

  lemma DueIs(f: Fallback, test: Stmt, metadata: Option<map<string, Meta>>)
    requires test.IfStmt? && f.field == test.field && f.below == ToReal(test.value)
    ensures Triggers(Some(f), metadata) <==> Due(test, metadata)
  {
    hide ToReal, Below;
    if metadata.Some? && test.field in metadata.value {
      match metadata.value[test.field]
      case Number(x) => BelowIs(x, test.value);
      case Flag(truth) => BelowIs(if truth then 1.0 else 0.0, test.value);
      case Other(_) =>
    }
  }

  lemma FoldIs(sc: Scope, i: nat, step: Step, pending: Pending)
    requires i < |sc.body| && sc.body[i].ConsensusStmt? && VoteOf(sc, i, step, pending)
    ensures HasTest(sc.body, i) <==> step.fallback.Some?
    ensures HasTest(sc.body, i) ==>
      var test, f := sc.body[i + 1], step.fallback.value;
      && |test.then_| == 1 && test.then_[0].RefStmt? && Resolve(sc.env, sc.agents, test.then_[0].name) == Success(f.tool)
      && f.field == test.field && f.below == ToReal(test.value)
  {
    hide Resolve, ToReal, ResolveStrategy;
  }

  /** The fallback fires when the interpreter says it is due, and does what its name, called, does. */
  lemma FallbackAlike(c: Context, sc: Scope, cfg: Config, i: nat, step: Step, pending: Pending, metadata: Option<map<string, Meta>>, id: nat, b: Bindings)
    requires Suits(c, sc, cfg) && i < |sc.body| && sc.body[i].ConsensusStmt? && VoteOf(sc, i, step, pending)
    ensures Triggers(step.fallback, metadata) <==> HasTest(sc.body, i) && Due(sc.body[i + 1], metadata)
    ensures HasTest(sc.body, i) ==> |sc.body[i + 1].then_| == 1 && sc.body[i + 1].then_[0].RefStmt?
    ensures HasTest(sc.body, i) ==> step.fallback.Some?
    ensures HasTest(sc.body, i) ==>
      ToolRun(cfg.policy, cfg.world, step.fallback.value.tool, None, id, Some(step.id), b, false).output
        == Call(c, sc.body[i + 1].then_[0].name, id, b)
  {
    hide ToolRun, ToReal, Call, Due, Resolve, Suits, VoteOf;
    UnfoldVote(sc, i, step, pending);
    FoldIs(sc, i, step, pending);
    if HasTest(sc.body, i) {
      DueIs(step.fallback.value, sc.body[i + 1], metadata);
      CallIs(c, sc, cfg, sc.body[i + 1].then_[0].name, step.fallback.value.tool, id, Some(step.id), b, false);
    }
  }

  /** What a consensus statement gives: the value, the fallback's if it was due, and the next id; None if it fails. */
  datatype Voted = Voted(value: Value, outputs: seq<Value>, next: nat)

  ghost function Vote(c: Context, i: nat, b: Bindings, id: nat, votes: seq<Value>): Option<Voted>
    requires i < |c.body| && c.body[i].ConsensusStmt?
  {
    match Reduced(c.ir, c.env, c.body[i], id, votes)
      case None => None
      case Some(Chosen(value, metadata)) =>
        if HasTest(c.body, i) && Due(c.body[i + 1], metadata) && |c.body[i + 1].then_| == 1 && c.body[i + 1].then_[0].RefStmt? then
          var rescue := Call(c, c.body[i + 1].then_[0].name, id + 1, b);
          if rescue.None? then None else Some(Voted(value, [value, rescue.value], id + 2))
        else Some(Voted(value, [value], id + 1))
  }

  lemma VoteIs(c: Context, i: nat, b: Bindings, id: nat, votes: seq<Value>, outputs: seq<seq<Value>>)
    requires i < |c.body| && c.body[i].ConsensusStmt?
    ensures Interpret(c, i, b, id, Some(votes), outputs) ==
      match Vote(c, i, b, id, votes)
      case None => Meaning(false, b, outputs)
      case Some(voted) =>
        Interpret(c, Past(c.body, i), Bound(c.body, Past(c.body, i), b, voted.value), voted.next, None, outputs + [voted.outputs])
  {
    hide Call, Bound, Reduced, Due;
  }

  lemma RefusedAlike(c: Context, sc: Scope, cfg: Config, i: nat, step: Step, pending: Pending, id: nat, b: Bindings, votes: seq<Value>)
    requires Suits(c, sc, cfg) && i < |sc.body| && sc.body[i].ConsensusStmt? && VoteOf(sc, i, step, pending)
    requires step.strategy(id, votes).Disagreed?
    ensures !Decide(cfg, step, None, votes, id, b).ok && Vote(c, i, b, id, votes).None?
  {
    hide ToolRun, DecisionOpening, DecisionRefused, Due, StrategyError, Triggers, Call, FoldedFallback, HasTest, Reduced, ResolveStrategy, Scoped;
    SuitsParts(c, sc, cfg);
    StrategyIs(c.ir, c.env, c.body[i], id, votes);
  }

  lemma AgreedAlike(c: Context, sc: Scope, cfg: Config, i: nat, step: Step, pending: Pending, id: nat, b: Bindings, votes: seq<Value>)
    requires Suits(c, sc, cfg) && i < |sc.body| && sc.body[i].ConsensusStmt? && VoteOf(sc, i, step, pending)
    requires step.strategy(id, votes).Agreed?
    ensures var d, v := Decide(cfg, step, None, votes, id, b), Vote(c, i, b, id, votes);
      && (d.ok <==> v.Some?) && (v.Some? ==> d.next == v.value.next && d.outputs == v.value.outputs && Settled(d) == Some(v.value.value))
  {
    hide ToolRun, DecisionOpening, DecisionAgreed, Due, Triggers, Call, FoldedFallback, HasTest, Reduced, ResolveStrategy, Scoped;
    FallbackAlike(c, sc, cfg, i, step, pending, step.strategy(id, votes).metadata, id + 1, b);
    SuitsParts(c, sc, cfg);
    StrategyIs(c.ir, c.env, c.body[i], id, votes);
  }

  lemma DecideAlike(c: Context, sc: Scope, cfg: Config, i: nat, step: Step, pending: Pending, id: nat, b: Bindings, votes: seq<Value>)
    requires Suits(c, sc, cfg) && i < |sc.body| && sc.body[i].ConsensusStmt? && VoteOf(sc, i, step, pending)
    ensures var d, v := Decide(cfg, step, None, votes, id, b), Vote(c, i, b, id, votes);
      && (d.ok <==> v.Some?) && (v.Some? ==> d.next == v.value.next && d.outputs == v.value.outputs && Settled(d) == Some(v.value.value))
  {
    if step.strategy(id, votes).Disagreed? {
      RefusedAlike(c, sc, cfg, i, step, pending, id, b, votes);
    } else {
      AgreedAlike(c, sc, cfg, i, step, pending, id, b, votes);
    }
    hide Decide, Vote, VoteOf, Suits;
  }

  lemma VoteAlike(c: Context, sc: Scope, cfg: Config, i: nat, e: Entry, pending: Pending, next: nat, b: Bindings, cache: map<GroupId, seq<Value>>)
    requires Suits(c, sc, cfg) && i < |sc.body| && sc.body[i].ConsensusStmt? && VoteOf(sc, i, e.step, pending)
    requires pending.id in cache && e.agent.None?
    ensures var run, v := RunEntry(cfg, e, next, b, cache), Vote(c, i, b, next, cache[pending.id]);
      && (run.ok <==> v.Some?)
      && (v.Some? ==> run.next == v.value.next && run.bound == Some(v.value.value) && run.outputs == v.value.outputs)
  {
    hide Decide, Vote, Suits, DecideNothing;
    DecideAlike(c, sc, cfg, i, e.step, pending, next, b, cache[pending.id]);
    UnfoldVote(sc, i, e.step, pending);
    hide VoteOf;
  }

  lemma UnfoldVote(sc: Scope, i: nat, step: Step, pending: Pending)
    requires i < |sc.body| && sc.body[i].ConsensusStmt? && VoteOf(sc, i, step, pending)
    ensures step.Consensus? && step.source == Some(pending.id)
  {
  }

  // ---------------------------------------------------------------- one statement

  /** The scheduler's k-th turn goes on in a state that is in step with the interpreter. */
  ghost predicate Moves(cfg: Config, k: nat, st: Progress, st': Progress, bd: Building,
                        b: Bindings, id: nat, votes: Option<seq<Value>>, outputs: seq<seq<Value>>) {
    && k < |cfg.entries| && Remaining(cfg, k, st) == Remaining(cfg, k + 1, st') && InStep(bd, st', b, id, votes, outputs)
  }

  lemma StepSimulates(c: Context, sc: Scope, cfg: Config, i: nat, bd: Building, st: Progress, name: string,
                      b: Bindings, id: nat, votes: Option<seq<Value>>, outputs: seq<seq<Value>>)
    returns (st': Progress)
    requires Plainly(cfg) && Suits(c, sc, cfg) && i < |sc.body| && InStep(bd, st, b, id, votes, outputs)
    requires AddStep(sc, bd, name, i + 1).Success? && AddStep(sc, bd, name, i + 1).value.steps <= cfg.entries
    ensures var v := Call(c, name, id, b);
      if v.None? then EndsAs(Remaining(cfg, |bd.steps|, st), Meaning(false, b, outputs))
      else Moves(cfg, |bd.steps|, st, st', AddStep(sc, bd, name, i + 1).value, Bound(c.body, i + 1, b, v.value), id + 1, None, outputs + [[v.value]])
  {
    hide RunEntry, Remaining, Advance, Finish, Call, Resolve, Bound, BindingAt;
    var k := |bd.steps|;
    var e := cfg.entries[k];
    assert e == AddStep(sc, bd, name, i + 1).value.steps[k];
    PlainTurn(cfg, k, st);
    SingleAlike(c, sc, cfg, e, name, id, b, st.cache);
    var run := RunEntry(cfg, e, id, b, st.cache);
    st' := Advance(st, e, run);
    var v := Call(c, name, id, b);
    if v.Some? {
      GoodAdvance(st, e, run);
      BindsAlike(sc, i + 1, b, v.value);
      assert Moves(cfg, k, st, st', AddStep(sc, bd, name, i + 1).value, Bound(c.body, i + 1, b, v.value), id + 1, None, outputs + [[v.value]]);
    } else {
      FailedAdvance(st, e, run);
    }
  }

  lemma GroupSimulates(c: Context, sc: Scope, cfg: Config, bd: Building, st: Progress, names: seq<string>,
                       b: Bindings, id: nat, votes: Option<seq<Value>>, outputs: seq<seq<Value>>)
    returns (st': Progress)
    requires Plainly(cfg) && Suits(c, sc, cfg) && InStep(bd, st, b, id, votes, outputs)
    requires AddGroup(sc, bd, names).Success? && AddGroup(sc, bd, names).value.steps <= cfg.entries
    ensures var vs := CallAll(c, names, id, b);
      if vs.None? then EndsAs(Remaining(cfg, |bd.steps|, st), Meaning(false, b, outputs))
      else Moves(cfg, |bd.steps|, st, st', AddGroup(sc, bd, names).value, b, id + |names|, vs, outputs + [vs.value])
  {
    hide RunEntry, Remaining, Advance, Finish;
    var k := |bd.steps|;
    var e := cfg.entries[k];
    assert e == AddGroup(sc, bd, names).value.steps[k];
    PlainTurn(cfg, k, st);
    ParallelAlike(c, sc, cfg, e, names, id, b, st.cache);
    var run := RunEntry(cfg, e, id, b, st.cache);
    st' := Advance(st, e, run);
    var vs := CallAll(c, names, id, b);
    if vs.Some? {
      GoodAdvance(st, e, run);
      assert Moves(cfg, k, st, st', AddGroup(sc, bd, names).value, b, id + |names|, vs, outputs + [vs.value]);
    } else {
      FailedAdvance(st, e, run);
    }
  }

  lemma VoteAdded(sc: Scope, bd: Building, i: nat)
    requires i < |sc.body| && sc.body[i].ConsensusStmt? && AddVote(sc, bd, i).Success?
    ensures bd.pending.Some?
    ensures var more := AddVote(sc, bd, i).value;
      && |more.steps| == |bd.steps| + 1 && more.pending.None?
      && VoteOf(sc, i, more.steps[|bd.steps|].step, bd.pending.value) && more.steps[|bd.steps|].agent.None?
      && more.steps[|bd.steps|].asName == BindingAt(sc.body, sc.aliases, After(sc.body, i))
  {
    hide ResolveStrategy, FoldedFallback, BindingAt;
  }

  lemma VoteSimulates(c: Context, sc: Scope, cfg: Config, i: nat, bd: Building, st: Progress,
                      b: Bindings, id: nat, votes: Option<seq<Value>>, outputs: seq<seq<Value>>)
    returns (st': Progress)
    requires Plainly(cfg) && Suits(c, sc, cfg) && i < |sc.body| && sc.body[i].ConsensusStmt? && InStep(bd, st, b, id, votes, outputs)
    requires AddVote(sc, bd, i).Success? && AddVote(sc, bd, i).value.steps <= cfg.entries
    ensures votes.Some?
    ensures var v := Vote(c, i, b, id, votes.value);
      if v.None? then EndsAs(Remaining(cfg, |bd.steps|, st), Meaning(false, b, outputs))
      else Moves(cfg, |bd.steps|, st, st', AddVote(sc, bd, i).value, Bound(c.body, Past(c.body, i), b, v.value.value), v.value.next, None, outputs + [v.value.outputs])
  {
    hide RunEntry, Remaining, Advance, Finish, Vote, Bound, BindingAt, VoteOf, AddVote;
    var k := |bd.steps|;
    VoteAdded(sc, bd, i);
    var e := cfg.entries[k];
    assert e == AddVote(sc, bd, i).value.steps[k];
    PlainTurn(cfg, k, st);
    VoteAlike(c, sc, cfg, i, e, bd.pending.value, id, b, st.cache);
    var run := RunEntry(cfg, e, id, b, st.cache);
    st' := Advance(st, e, run);
    var v := Vote(c, i, b, id, votes.value);
    if v.Some? {
      GoodAdvance(st, e, run);
      UnfoldVote(sc, i, e.step, bd.pending.value);
      BindsAlike(sc, After(sc.body, i), b, v.value.value);
      assert Moves(cfg, k, st, st', AddVote(sc, bd, i).value, Bound(c.body, Past(c.body, i), b, v.value.value), v.value.next, None, outputs + [v.value.outputs]);
    } else {
      FailedAdvance(st, e, run);
    }
  }

  // ---------------------------------------------------------------- the whole body

  lemma QuietSimulates(bd: Building, st: Progress, b: Bindings, id: nat, votes: Option<seq<Value>>, outputs: seq<seq<Value>>)
    requires InStep(bd, st, b, id, votes, outputs)
    ensures InStep(bd.(pending := None), st, b, id, None, outputs)
  {
  }

  lemma EndSimulates(cfg: Config, bd: Building, st: Progress, b: Bindings, id: nat, votes: Option<seq<Value>>, outputs: seq<seq<Value>>)
    requires InStep(bd, st, b, id, votes, outputs) && |bd.steps| == |cfg.entries|
    ensures EndsAs(Remaining(cfg, |bd.steps|, st), Meaning(true, b, outputs))
  {
    RemainingEnd(cfg, st);
  }

  /** What the rest of the walk adds comes after what is built; and each statement adds at most one entry. */
  lemma {:induction false} WalkExtends(sc: Scope, i: nat, bd: Building)
    requires i <= |sc.body| && Walk(sc, i, bd).Success?
    ensures bd.steps <= Walk(sc, i, bd).value.steps
    decreases |sc.body| - i
  {
    hide Add;
    if i < |sc.body| {
      AddExtends(sc, bd, i);
      WalkExtends(sc, After(sc.body, i), Add(sc, bd, i).value);
    }
  }

  lemma AddExtends(sc: Scope, bd: Building, i: nat)
    requires i < |sc.body| && Add(sc, bd, i).Success?
    ensures bd.steps <= Add(sc, bd, i).value.steps
    ensures |Add(sc, bd, i).value.steps| == |bd.steps| + if IsNode(sc.body[i]) then 1 else 0
  {
    hide Resolve, ResolveStrategy, FoldedFallback, BindingAt;
  }

  lemma {:induction false} BodySimulates(c: Context, sc: Scope, cfg: Config, i: nat, bd: Building, st: Progress,
                                         b: Bindings, id: nat, votes: Option<seq<Value>>, outputs: seq<seq<Value>>)
    requires Plainly(cfg) && Suits(c, sc, cfg) && i <= |sc.body| && InStep(bd, st, b, id, votes, outputs)
    requires Walk(sc, i, bd).Success? && Walk(sc, i, bd).value.steps == cfg.entries
    ensures |bd.steps| <= |cfg.entries| && i <= |c.body|
    ensures EndsAs(Remaining(cfg, |bd.steps|, st), Interpret(c, i, b, id, votes, outputs))
    decreases |sc.body| - i
  {
    hide InStep, EndsAs, Remaining, Call, Vote, AddStep, AddGroup, AddVote, Bound, Plainly, Scoped, Reduced;
    SuitsParts(c, sc, cfg);
    hide Suits;
    WalkExtends(sc, i, bd);
    if i == |sc.body| {
      EndSimulates(cfg, bd, st, b, id, votes, outputs);
    } else {
      var more := Add(sc, bd, i).value;
      WalkExtends(sc, After(sc.body, i), more);
      AddExtends(sc, bd, i);
      match sc.body[i]
      case StepStmt(ref) => StepBody(c, sc, cfg, i, bd, st, ref, b, id, votes, outputs);
      case RefStmt(name) => StepBody(c, sc, cfg, i, bd, st, name, b, id, votes, outputs);
      case ParallelStmt(members) =>
        var st' := GroupSimulates(c, sc, cfg, bd, st, members, b, id, votes, outputs);
        var vs := CallAll(c, members, id, b);
        if vs.Some? {
          BodySimulates(c, sc, cfg, i + 1, more, st', b, id + |members|, vs, outputs + [vs.value]);
        }
      case ConsensusStmt(_, _, _) =>
        var st' := VoteSimulates(c, sc, cfg, i, bd, st, b, id, votes, outputs);
        VoteIs(c, i, b, id, votes.value, outputs);
        var v := Vote(c, i, b, id, votes.value);
        if v.Some? {
          var k := Past(c.body, i);
          BodySimulates(c, sc, cfg, k, more, st', Bound(c.body, k, b, v.value.value), v.value.next, None, outputs + [v.value.outputs]);
        }
      case ArtifactStmt(_, _, _) =>
        QuietSimulates(bd, st, b, id, votes, outputs);
        BodySimulates(c, sc, cfg, i + 1, more, st, b, id, None, outputs);
      case LetStmt(_, _) =>
        QuietSimulates(bd, st, b, id, votes, outputs);
        BodySimulates(c, sc, cfg, i + 1, more, st, b, id, None, outputs);
      case IfStmt(_, _, _, _) =>
      case ApprovalStmt(_) =>
      case MemoryStmt(_) =>
    }
  }

  lemma {:induction false} StepBody(c: Context, sc: Scope, cfg: Config, i: nat, bd: Building, st: Progress, name: string,
                                    b: Bindings, id: nat, votes: Option<seq<Value>>, outputs: seq<seq<Value>>)
    requires Plainly(cfg) && Suits(c, sc, cfg) && i < |sc.body| && InStep(bd, st, b, id, votes, outputs)
    requires Walk(sc, i, bd).Success? && Walk(sc, i, bd).value.steps == cfg.entries
    requires sc.body[i] == StepStmt(name) || sc.body[i] == RefStmt(name)
    ensures |bd.steps| <= |cfg.entries| && i <= |c.body|
    ensures EndsAs(Remaining(cfg, |bd.steps|, st), Interpret(c, i, b, id, votes, outputs))
    decreases |sc.body| - i, 0
  {
    hide InStep, EndsAs, Remaining, Call, AddStep, Bound, Plainly;
    var more := Add(sc, bd, i).value;
    WalkExtends(sc, i, bd);
    WalkExtends(sc, i + 1, more);
    AddExtends(sc, bd, i);
    var st' := StepSimulates(c, sc, cfg, i, bd, st, name, b, id, votes, outputs);
    var v := Call(c, name, id, b);
    if v.Some? {
      var b' := Bound(c.body, i + 1, b, v.value);
      BodySimulates(c, sc, cfg, i + 1, more, st', b', id + 1, None, outputs + [[v.value]]);
    }
  }

  /** The meaning of a file under an environment, with its own policy's approvals. */
  ghost function MeaningOf(ir: IR, env: Environment, world: World): Meaning
    requires ir.workflow.Some?
  {
    Interpret(Context(ir, env, ir.workflow.value.body, world), 0, map[], 1, None, [])
  }

  /**
   Building preserves meaning: for every file that can be built and sets no budgets, running the built
   workflow gives the status, the bindings and the node outputs the interpreter gives.
   */
  lemma BuildingPreservesMeaning(ir: IR, env: Environment, world: World)
    requires ir.workflow.Some? && Compile(ir, env).Success?
    requires ir.policy.maxCost.None? && ir.policy.maxRuntime.None?
    ensures var cfg := Config(Compile(ir, env).value, PolicyOf(ir.policy), world, map[], false);
      EndsAs(Run(cfg), MeaningOf(ir, env, world))
  {
    hide LetsResolve, EndsAs, Run, Remaining, Scoped, Named;
    var cfg := Config(Compile(ir, env).value, PolicyOf(ir.policy), world, map[], false);
    var sc := ScopeOf(ir, env, AgentsFrom(env, ir.provider, ir.agents, 0, map[]).value);
    var c := Context(ir, env, ir.workflow.value.body, world);
    ScopeIsScoped(ir, env);
    PolicyIs(ir.policy);
    RunIsRemaining(cfg);
    BodySimulates(c, sc, cfg, 0, NOTHING, START, map[], 1, None, []);
  }
}
