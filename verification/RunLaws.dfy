/** Invariants of the plan's state over a whole run: ids, steps, failures, cost and status. */
module RunLaws {
  import opened Wrappers
  import opened Values
  import opened Runtime
  import opened Merges
  import opened Blocks
  import opened Measures
  import opened Workers
  import opened WorkerLaws
  import opened Plans
  import opened GroupLaws
  import opened StepLaws

  // ---------------------------------------------------------------- one entry

  lemma SequentialOne(a: Block)
    ensures Sequential([a]) == InOrder(a)
  {
    assert Init([a]) == [];
    assert [] + InOrder(a) == InOrder(a);
  }

  lemma SequentialSnoc(blocks: seq<Block>, a: Block)
    ensures Sequential(blocks + [a]) == Sequential(blocks) + InOrder(a)
  {
    assert Init(blocks + [a]) == blocks;
  }

  lemma SequentialThree(a: Block, b: Block, c: Block)
    ensures Sequential([a, b, c]) == InOrder(a) + InOrder(b) + InOrder(c)
  {
    SequentialOne(a);
    SequentialSnoc([a], b);
    SequentialSnoc([a] + [b], c);
    assert [a] + [b] + [c] == [a, b, c];
  }

  lemma SequentialFour(a: Block, b: Block, c: Block, d: Block)
    ensures Sequential([a, b, c, d]) == InOrder(a) + InOrder(b) + InOrder(c) + InOrder(d)
  {
    SequentialThree(a, b, c);
    SequentialSnoc([a, b, c], d);
    assert [a, b, c] + [d] == [a, b, c, d];
  }

  /** How a list of actions moves the run on: whole steps from..to - 1, some of them failed or none. */
  ghost predicate Moves(l: seq<Action>, from: nat, to: nat, ok: bool) {
    StepsIn(l, from, to) && Measure(l, Failed) >= 0.0 && (Measure(l, Failed) == 0.0 <==> ok)
  }

  lemma MovesConcat(l: seq<Action>, m: seq<Action>, a: nat, b: nat, c: nat, p: bool, q: bool)
    requires Moves(l, a, b, p) && Moves(m, b, c, q)
    ensures Moves(l + m, a, c, p && q)
  {
    hide StepsIn;
    StepsConcat(l, m, a, b, c);
    MeasureConcat(l, m, Failed);
  }

  lemma MovesStep(l: seq<Action>, id: nat, ok: bool)
    requires Whole(l, id, ok)
    ensures Moves(l, id, id + 1, ok)
  {
    StepsOne(l, id, ok);
    WholeMeasures(l, id, ok);
  }

  lemma MovesEvent(e: Event, n: nat)
    requires !KeyOf(Emit(e)).OfStep?
    ensures Moves([Emit(e)], n, n, true)
  {
    StepsNone([Emit(e)], n);
    MeasureSnoc([], Emit(e), Failed);
    assert [] + [Emit(e)] == [Emit(e)];
  }

  predicate AllOf(oks: seq<bool>) {
    forall k | 0 <= k < |oks| :: oks[k]
  }

  lemma {:induction false} MovesFlatten(members: seq<seq<Action>>, oks: seq<bool>, first: nat)
    requires |members| == |oks| && forall k | 0 <= k < |members| :: Whole(members[k], first + k, oks[k])
    ensures Moves(Flatten(members), first, first + |members|, AllOf(oks))
    decreases |members|
  {
    hide Whole, Moves;
    if members == [] {
      MovesNothing(first);
    } else {
      MovesFlatten(Init(members), Init(oks), first);
      MovesStep(Last(members), first + |members| - 1, Last(oks));
      MovesConcat(Flatten(Init(members)), Last(members), first, first + |members| - 1, first + |members|, AllOf(Init(oks)), Last(oks));
      assert AllOf(oks) <==> AllOf(Init(oks)) && Last(oks);
    }
  }

  lemma MovesNothing(n: nat)
    ensures Moves([], n, n, true)
  {
    StepsNone([], n);
  }

  lemma MembersMove(cfg: Config, tools: seq<Tool>, agent: Option<Agent>, first: nat, group: GroupId, b: Bindings)
    ensures var runs := MemberRuns(cfg, tools, agent, first, group, b);
      Moves(Flatten(Members(runs)), first, first + |tools|, AllSucceeded(runs))
  {
    hide ToolRun, Whole, Moves, Flatten;
    var runs := MemberRuns(cfg, tools, agent, first, group, b);
    var oks := seq(|runs|, k requires 0 <= k < |runs| => runs[k].output.Some?);
    forall k | 0 <= k < |runs| ensures Whole(Members(runs)[k], first + k, oks[k]) {
      ToolRunWhole(cfg.policy, cfg.world, tools[k], agent, first + k, Some(group), b, true);
    }
    MovesFlatten(Members(runs), oks, first);
    assert forall k | 0 <= k < |runs| :: oks[k] == runs[k].output.Some?;
    assert AllOf(oks) ==> AllSucceeded(runs) by {
      if AllOf(oks) {
        forall k | 0 <= k < |runs| ensures runs[k].output.Some? { assert oks[k]; }
      }
    }
  }

  lemma DecideMoves(cfg: Config, step: Step, agent: Option<Agent>, votes: seq<Value>, id: nat, b: Bindings)
    requires step.Consensus?
    ensures var d := Decide(cfg, step, agent, votes, id, b); Moves(d.actions, id, d.next, d.ok)
  {
    hide ToolRun, Whole, Moves;
    match step.strategy(id, votes)
    case Disagreed(e) =>
      RefusalWhole(step.name, id, step.id, StrategyError(e));
      MovesStep(DecisionOpening(step.name, id, step.id) + DecisionRefused(step.name, id, step.id, StrategyError(e)), id, false);
    case Agreed(value, metadata) =>
      AgreementWhole(step.name, id, step.id, value, metadata);
      var agreed := DecisionOpening(step.name, id, step.id) + DecisionAgreed(step.name, id, step.id, value, metadata);
      MovesStep(agreed, id, true);
      if Triggers(step.fallback, metadata) {
        var tool := step.fallback.value.tool;
        var run := ToolRun(cfg.policy, cfg.world, tool, agent, id + 1, Some(step.id), b, false);
        ToolRunWhole(cfg.policy, cfg.world, tool, agent, id + 1, Some(step.id), b, false);
        MovesStep(run.actions, id + 1, run.output.Some?);
        MovesConcat(agreed, run.actions, id, id + 1, id + 2, true, run.output.Some?);
      }
  }

  lemma GroupMoves(step: Step, ok: bool, n: nat)
    requires !step.Single?
    ensures Moves(InOrder(Opened(step)), n, n, true) && Moves(InOrder(Closed(step, ok)), n, n, true)
  {
    MovesEvent(GroupStarted(step.id, Names(step.tools), step.Consensus?), n);
    MovesEvent(GroupFinished(step.id, ok), n);
  }

  lemma ThreeMove(a: Block, b: Block, c: Block, n: nat, m: nat, ok: bool)
    requires Moves(InOrder(a), n, n, true) && Moves(InOrder(b), n, m, ok) && Moves(InOrder(c), m, m, true)
    ensures Moves(Sequential([a, b, c]), n, m, ok)
  {
    hide Moves;
    SequentialThree(a, b, c);
    MovesConcat(InOrder(a), InOrder(b), n, n, m, true, ok);
    MovesConcat(InOrder(a) + InOrder(b), InOrder(c), n, m, m, ok, true);
  }

  lemma FourMove(a: Block, b: Block, c: Block, d: Block, n: nat, m: nat, k: nat, p: bool, q: bool)
    requires Moves(InOrder(a), n, n, true) && Moves(InOrder(b), n, m, p)
    requires Moves(InOrder(c), m, k, q) && Moves(InOrder(d), k, k, true)
    ensures Moves(Sequential([a, b, c, d]), n, k, p && q)
  {
    hide Moves;
    SequentialFour(a, b, c, d);
    MovesConcat(InOrder(a), InOrder(b), n, n, m, true, p);
    MovesConcat(InOrder(a) + InOrder(b), InOrder(c), n, m, k, p, q);
    MovesConcat(InOrder(a) + InOrder(b) + InOrder(c), InOrder(d), n, k, k, p && q, true);
  }

  /** An entry's steps are one contiguous block of ids, and it succeeds exactly when none of them failed. */
  lemma EntryMoves(cfg: Config, e: Entry, next: nat, b: Bindings, cache: map<GroupId, seq<Value>>)
    ensures var run := RunEntry(cfg, e, next, b, cache); Moves(Sequential(run.blocks), next, run.next, run.ok)
  {
    hide ToolRun, Decide, MemberRuns, Members, Moves, Whole, Opened, Closed, DecisionOpening, DecisionRefused;
    match e.step
    case Single(tool) =>
      var run := ToolRun(cfg.policy, cfg.world, tool, e.agent, next, None, b, true);
      ToolRunWhole(cfg.policy, cfg.world, tool, e.agent, next, None, b, true);
      SequentialOne(Solo(run.actions));
      MovesStep(run.actions, next, run.output.Some?);
    case Parallel(id, tools) =>
      ParallelMoves(cfg, e, next, b);
    case Consensus(id, tools, name, _, source, _) =>
      if source.None? { VotersMove(cfg, e, next, b); } else { ReuseMoves(cfg, e, next, b, cache); }
  }

  lemma ParallelMoves(cfg: Config, e: Entry, next: nat, b: Bindings)
    requires e.step.Parallel?
    ensures var run := RunParallel(cfg, e, next, b); Moves(Sequential(run.blocks), next, run.next, run.ok)
  {
    hide MemberRuns, Members, Moves, Opened, Closed;
    var runs := MemberRuns(cfg, e.step.tools, e.agent, next, e.step.id, b);
    MembersMove(cfg, e.step.tools, e.agent, next, e.step.id, b);
    var ok := AllSucceeded(runs);
    GroupMoves(e.step, ok, next);
    GroupMoves(e.step, ok, next + |runs|);
    ThreeMove(Opened(e.step), Fork(Members(runs)), Closed(e.step, ok), next, next + |runs|, ok);
  }

  lemma VotersMove(cfg: Config, e: Entry, next: nat, b: Bindings)
    requires e.step.Consensus? && e.step.source.None?
    ensures var run := RunVoters(cfg, e, next, b); Moves(Sequential(run.blocks), next, run.next, run.ok)
  {
    hide MemberRuns, Members, Moves, Opened, Closed, Decide;
    var runs := MemberRuns(cfg, e.step.tools, e.agent, next, e.step.id, b);
    MembersMove(cfg, e.step.tools, e.agent, next, e.step.id, b);
    GroupMoves(e.step, false, next);
    if AllSucceeded(runs) {
      var d := Decide(cfg, e.step, e.agent, Outputs(runs), next + |runs|, b);
      DecideMoves(cfg, e.step, e.agent, Outputs(runs), next + |runs|, b);
      GroupMoves(e.step, d.ok, d.next);
      FourMove(Opened(e.step), Fork(Members(runs)), Solo(d.actions), Closed(e.step, d.ok), next, next + |runs|, d.next, true, d.ok);
    } else {
      GroupMoves(e.step, false, next + |runs|);
      ThreeMove(Opened(e.step), Fork(Members(runs)), Closed(e.step, false), next, next + |runs|, false);
    }
  }

  lemma ReuseMoves(cfg: Config, e: Entry, next: nat, b: Bindings, cache: map<GroupId, seq<Value>>)
    requires e.step.Consensus? && e.step.source.Some?
    ensures var run := RunReuse(cfg, e, next, b, cache); Moves(Sequential(run.blocks), next, run.next, run.ok)
  {
    hide Moves, Opened, Closed, Decide, DecisionOpening, DecisionRefused, NothingToReuse;
    var d := if e.step.source.value in cache then Decide(cfg, e.step, e.agent, cache[e.step.source.value], next, b)
             else DecideNothing(e.step, next);
    if e.step.source.value in cache {
      DecideMoves(cfg, e.step, e.agent, cache[e.step.source.value], next, b);
    } else {
      RefusalWhole(e.step.name, next, e.step.id, NothingToReuse(e.step.source.value));
      MovesStep(d.actions, next, false);
    }
    GroupMoves(e.step, d.ok, next);
    GroupMoves(e.step, d.ok, d.next);
    ThreeMove(Opened(e.step), Solo(d.actions), Closed(e.step, d.ok), next, d.next, d.ok);
  }

  lemma EntrySeparate(cfg: Config, e: Entry, next: nat, b: Bindings, cache: map<GroupId, seq<Value>>)
    ensures AllSeparate(RunEntry(cfg, e, next, b, cache).blocks)
  {
    hide ToolRun, Decide, MemberRuns, Members, Opened, Closed, DecideNothing;
    if !e.step.Single? {
      GroupSeparate(cfg, e.step.tools, e.agent, next, e.step.id, b);
      assert Opened(e.step).Solo? && Closed(e.step, true).Solo? && Closed(e.step, false).Solo? by { GroupBlocks(e.step); }
    }
  }

  lemma GroupBlocks(step: Step)
    requires !step.Single?
    ensures Opened(step).Solo? && Closed(step, true).Solo? && Closed(step, false).Solo?
  {
  }

  // ---------------------------------------------------------------- the whole run

  /** What holds of the plan between any two entries of any run. */
  ghost predicate Orderly(st: Progress) {
    && AllSeparate(st.blocks)
    && Moves(Sequential(st.blocks), 1, st.next, true)
    && st.cost == Measure(Sequential(st.blocks), Cost)
  }

  /** And what holds when it is over: the last entry may have failed. */
  ghost predicate OrderlyEnd(r: RunResult) {
    && AllSeparate(r.state.blocks)
    && StepsIn(Sequential(r.state.blocks), 1, r.state.next)
    && r.state.cost == Measure(Sequential(r.state.blocks), Cost)
  }

  lemma SeparateConcat(blocks: seq<Block>, more: seq<Block>)
    requires AllSeparate(blocks) && AllSeparate(more)
    ensures AllSeparate(blocks + more)
  {
  }

  lemma SeparateSolo(actions: seq<Action>)
    ensures AllSeparate([Solo(actions)])
  {
  }

  lemma AppendSolo(blocks: seq<Block>, actions: seq<Action>, from: nat, to: nat, next: nat, p: bool, q: bool)
    requires AllSeparate(blocks) && Moves(Sequential(blocks), from, to, p) && Moves(actions, to, next, q)
    ensures AllSeparate(blocks + [Solo(actions)])
    ensures Moves(Sequential(blocks + [Solo(actions)]), from, next, p && q)
    ensures Measure(Sequential(blocks + [Solo(actions)]), Cost) == Measure(Sequential(blocks), Cost) + Measure(actions, Cost)
  {
    hide Moves, AllSeparate;
    SeparateSolo(actions);
    SeparateConcat(blocks, [Solo(actions)]);
    SequentialSnoc(blocks, Solo(actions));
    MovesConcat(Sequential(blocks), actions, from, to, next, p, q);
    MeasureConcat(Sequential(blocks), actions, Cost);
  }

  lemma OneActionCost(a: Action)
    requires !a.Charge?
    ensures Measure([a], Cost) == 0.0
  {
    MeasureSnoc([], a, Cost);
    assert [] + [a] == [a];
  }

  lemma MovesRecord(i: nat, tool: string, output: Value, n: nat)
    ensures Moves([Record(i, tool, output)], n, n, true)
  {
    var a := Record(i, tool, output);
    StepsNone([a], n);
    MeasureSnoc([], a, Failed);
    assert [] + [a] == [a];
  }

  /** Running an entry keeps the state orderly, but for a failure if it failed. */
  lemma AdvanceMoves(cfg: Config, st: Progress, e: Entry)
    requires Orderly(st)
    ensures var run := RunEntry(cfg, e, st.next, st.bindings, st.cache);
      var st' := Advance(st, e, run);
      && AllSeparate(st'.blocks)
      && Moves(Sequential(st'.blocks), 1, st'.next, run.ok)
      && st'.cost == Measure(Sequential(st'.blocks), Cost)
  {
    hide RunEntry, Moves, AllSeparate;
    var run := RunEntry(cfg, e, st.next, st.bindings, st.cache);
    EntryMoves(cfg, e, st.next, st.bindings, st.cache);
    EntrySeparate(cfg, e, st.next, st.bindings, st.cache);
    SeparateConcat(st.blocks, run.blocks);
    SequentialConcat(st.blocks, run.blocks);
    MovesConcat(Sequential(st.blocks), Sequential(run.blocks), 1, st.next, run.next, true, run.ok);
    MeasureConcat(Sequential(st.blocks), Sequential(run.blocks), Cost);
  }

  lemma FinishOrderly(st: Progress, success: bool, ok: bool)
    requires AllSeparate(st.blocks) && Moves(Sequential(st.blocks), 1, st.next, ok)
    requires st.cost == Measure(Sequential(st.blocks), Cost)
    ensures OrderlyEnd(Finish(st, success))
    ensures Moves(Sequential(Finish(st, success).state.blocks), 1, st.next, ok)
  {
    hide AllSeparate;
    var e := WorkflowFinished(success);
    MovesEvent(e, st.next);
    OneActionCost(Emit(e));
    AppendSolo(st.blocks, [Emit(e)], 1, st.next, st.next, ok, true);
  }

  lemma ReplayMoves(st: Progress, e: Entry, saved: Saved)
    requires Orderly(st)
    ensures Orderly(Replay(st, e, saved))
  {
    hide AllSeparate, Moves, Whole;
    var actions := ReplayActions(st.next, saved);
    ReplayWhole(st.next, saved);
    MovesStep(actions, st.next, true);
    WholeMeasures(actions, st.next, true);
    ReplayFree(st.next, saved);
    AppendSolo(st.blocks, actions, 1, st.next, st.next + 1, true, true);
  }

  lemma ReplayFree(id: nat, saved: Saved)
    ensures Measure(ReplayActions(id, saved), Cost) == 0.0
  {
    var a := ReplayActions(id, saved);
    MeasureSnoc([], a[0], Cost);
    MeasureSnoc([] + [a[0]], a[1], Cost);
    MeasureSnoc([] + [a[0]] + [a[1]], a[2], Cost);
    assert [] + [a[0]] + [a[1]] + [a[2]] == a;
  }

  /** One turn of the loop. */
  lemma TurnOrderly(cfg: Config, i: nat, st: Progress)
    requires i < |cfg.entries| && Orderly(st)
    ensures match TurnAt(cfg, i, st)
      case GoesOn(st') => Orderly(st')
      case Stops(r) => OrderlyEnd(r) && (r.ending.Finished? ==> !r.ending.success)
  {
    hide RunEntry, Moves, AllSeparate, Storable, Replay, Finish, Advance;
    var e := cfg.entries[i];
    if OverTime(cfg, i) || OverBudget(cfg, st.cost) {
      FinishOrderly(st, false, true);
      FinishEnding(st, false);
    } else if Replays(cfg, i) {
      ReplayMoves(st, e, cfg.checkpoint[i]);
      MovesSteps(Sequential(st.blocks), 1, st.next, true);
    } else {
      var run := RunEntry(cfg, e, st.next, st.bindings, st.cache);
      var st1 := Advance(st, e, run);
      AdvanceMoves(cfg, st, e);
      FinishOrderly(st1, false, run.ok);
      FinishEnding(st1, false);
      MovesSteps(Sequential(st1.blocks), 1, st1.next, run.ok);
      if run.ok && run.bound.Some? {
        var a := Record(i, (if e.step.Single? then e.step.tool.name else ""), run.bound.value);
        MovesRecord(i, a.tool, run.bound.value, st1.next);
        OneActionCost(a);
        AppendSolo(st1.blocks, [a], 1, st1.next, st1.next, true, true);
      }
    }
  }

  lemma MovesSteps(l: seq<Action>, from: nat, to: nat, ok: bool)
    requires Moves(l, from, to, ok)
    ensures StepsIn(l, from, to)
  {
  }

  lemma FinishEnding(st: Progress, success: bool)
    ensures Finish(st, success).ending == Finished(success)
  {
  }

  lemma StartOrderly()
    ensures Orderly(START)
  {
    SequentialOne(Solo([Emit(WorkflowStarted)]));
    MovesEvent(WorkflowStarted, 1);
    OneActionCost(Emit(WorkflowStarted));
    SeparateSolo([Emit(WorkflowStarted)]);
  }

  lemma {:induction false} RunOrderly(cfg: Config, i: nat, st: Progress)
    requires i <= |cfg.entries| && Orderly(st)
    ensures OrderlyEnd(RunFrom(cfg, i, st))
    decreases |cfg.entries| - i
  {
    hide Orderly, OrderlyEnd, TurnAt, Finish;
    if i == |cfg.entries| {
      OrderlyFinishes(st);
    } else {
      TurnOrderly(cfg, i, st);
      match TurnAt(cfg, i, st)
      case GoesOn(st') => RunOrderly(cfg, i + 1, st');
      case Stops(_) =>
    }
  }

  lemma OrderlyFinishes(st: Progress)
    requires Orderly(st)
    ensures OrderlyEnd(Finish(st, true)) && Measure(Sequential(Finish(st, true).state.blocks), Failed) == 0.0
  {
    FinishOrderly(st, true, true);
  }

  /** Every run of every workflow hands out the ids 1..n, each to one whole step, and to nothing else. */
  lemma RunSteps(cfg: Config, l: seq<Action>)
    requires Linearizes(l, Run(cfg).state.blocks)
    ensures StepsIn(l, 1, Run(cfg).state.next)
  {
    hide Run, AllSeparate;
    RunIsOrderly(cfg);
    var blocks := Run(cfg).state.blocks;
    forall id: nat ensures Project(l, OfStep(id)) == Project(Sequential(blocks), OfStep(id)) {
      LinearizationProjects(l, blocks, OfStep(id));
    }
  }

  lemma RunIsOrderly(cfg: Config)
    ensures OrderlyEnd(Run(cfg))
  {
    StartOrderly();
    RunOrderly(cfg, 0, START);
  }
}
