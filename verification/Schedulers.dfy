/**
 The scheduler: one object per run that emits events to its two subscribers, adds up cost, caches
 group outputs, binds names and writes checkpoints.  Worker threads are interleaved action by action
 in an order nothing here chooses.  Every method is proved to perform a linearization of its plan.
 */
module Schedulers {
  import opened Wrappers
  import opened Values
  import opened Runtime
  import opened Merges
  import opened Blocks
  import opened Measures
  import opened Workers
  import opened WorkerLaws
  import opened Plans
  import opened Checkpoints
  import opened GroupLaws
  import opened EntryLaws
  import Journals
  import MetricsModel

  type JournalLog = Journals.JournalLog
  type Metrics = MetricsModel.Metrics

  /** The workflow's bindings dict, shared with whatever reads it. */
  class Namespace {
    var values: Bindings

    constructor ()
      ensures values == map[]
    {
      values := map[];
    }
  }

  /** The checkpoint store of a run, if it has one. */
  datatype StoreRef = NoStore | InMemory(memory: MemoryStore) | OnDisk(file: FileStore)

  function StoreObjects(store: StoreRef): set<object> {
    match store
    case NoStore => {}
    case InMemory(memory) => {memory}
    case OnDisk(file) => {file}
  }

  ghost predicate StoreValid(store: StoreRef)
    reads StoreObjects(store)
  {
    store.OnDisk? ==> store.file.Valid()
  }

  function Loaded(store: StoreRef, runId: string): Checkpoint
    requires StoreValid(store)
    reads StoreObjects(store)
  {
    match store
    case NoStore => map[]
    case InMemory(memory) => memory.Load(runId)
    case OnDisk(file) => file.Load(runId)
  }

  function Left(rest: seq<seq<Action>>): nat {
    if rest == [] then 0 else Left(Init(rest)) + |Last(rest)|
  }

  lemma {:induction false} LeftFalls(rest: seq<seq<Action>>, k: nat)
    requires k < |rest| && rest[k] != []
    ensures Left(rest[k := rest[k][1..]]) == Left(rest) - 1
    decreases |rest|
  {
    var rest' := rest[k := rest[k][1..]];
    if k == |rest| - 1 {
      assert Init(rest') == Init(rest);
    } else {
      assert Init(rest') == Init(rest)[k := Init(rest)[k][1..]];
      LeftFalls(Init(rest), k);
    }
  }

  /** What each thread has done and what it has left make up what it was given. */
  ghost predicate Shares(done: seq<seq<Action>>, rest: seq<seq<Action>>, threads: seq<seq<Action>>) {
    |done| == |rest| == |threads| && forall k | 0 <= k < |threads| :: done[k] + rest[k] == threads[k]
  }

  lemma SharesStart(done: seq<seq<Action>>, threads: seq<seq<Action>>)
    requires |done| == |threads| && AllEmpty(done)
    ensures Shares(done, threads, threads)
  {
    forall k | 0 <= k < |threads| ensures done[k] + threads[k] == threads[k] {
    }
  }

  lemma SharesStep(done: seq<seq<Action>>, rest: seq<seq<Action>>, threads: seq<seq<Action>>, k: nat)
    requires Shares(done, rest, threads) && k < |rest| && rest[k] != []
    ensures Shares(done[k := done[k] + [rest[k][0]]], rest[k := rest[k][1..]], threads)
    ensures rest[k][0] in threads[k]
  {
    assert done[k] + [rest[k][0]] + rest[k][1..] == done[k] + rest[k];
    assert rest[k][0] == threads[k][|done[k]|];
  }

  lemma SharesEnd(done: seq<seq<Action>>, rest: seq<seq<Action>>, threads: seq<seq<Action>>)
    requires Shares(done, rest, threads) && AllEmpty(rest)
    ensures done == threads
  {
    forall k | 0 <= k < |threads| ensures done[k] == threads[k] {
      assert done[k] + [] == done[k];
    }
  }

  lemma OneBlock(l: seq<Action>, block: Block)
    requires Performs(l, block)
    ensures Realizes(l, [block])
  {
    LinearizesSnoc([], [], l, block);
    assert [] + l == l;
  }

  /** The synchronous bus: both subscribers see each event before the next one is emitted. */
  class EventBus {
    const journal: JournalLog
    const metrics: Metrics
    ghost var log: seq<Action>

    constructor ()
      ensures BusValid(this) && log == [] && fresh(journal) && fresh(metrics)
    {
      journal := new Journals.JournalLog();
      metrics := new MetricsModel.Metrics();
      log := [];
    }

    method Emit(e: Event)
      requires BusValid(this)
      modifies this, journal, metrics
      ensures BusValid(this) && log == old(log) + [Action.Emit(e)]
    {
      journal.Notify(e);
      metrics.Notify(e);
      log := log + [Action.Emit(e)];
    }

    ghost method Miss(a: Action)
      requires BusValid(this) && !a.Emit?
      modifies this`log, journal`log, metrics`log
      ensures BusValid(this) && log == old(log) + [a]
    {
      journal.Miss(a);
      metrics.Miss(a);
      log := log + [a];
    }
  }

  /** The bus's subscribers are what its log makes them. */
  ghost predicate BusValid(bus: EventBus)
    reads bus, bus.journal, bus.metrics
  {
    bus.journal.Valid() && bus.metrics.Valid() && bus.journal.log == bus.log && bus.metrics.log == bus.log
  }

  /** The subscribers and the cost are what the actions performed so far make them. */
  ghost predicate Tracks(s: Scheduler)
    reads s`cost, s.bus, s.bus.journal, s.bus.metrics
  {
    BusValid(s.bus) && s.cost == Measure(s.bus.log, Cost)
  }

  /** So is the checkpoint. */
  ghost predicate StoreTracks(s: Scheduler)
    reads s.bus, StoreObjects(s.store)
  {
    StoreValid(s.store) && Loaded(s.store, s.runId) == Recorded(s.store.OnDisk?, s.initial, s.bus.log)
  }

  class Scheduler {
    const bus: EventBus
    const policy: Policy
    const world: World
    const store: StoreRef
    const runId: string
    var cost: real
    var groupOutputs: map<GroupId, seq<Value>>
    ghost const initial: Checkpoint

    /** Everything the run has done so far. */
    ghost function Trace(): seq<Action>
      reads bus
    {
      bus.log
    }

    constructor (policy: Policy, world: World, store: StoreRef, runId: string)
      requires StoreValid(store)
      ensures Tracks(this) && StoreTracks(this) && Trace() == [] && cost == 0.0 && groupOutputs == map[]
      ensures this.policy == policy && this.world == world && this.store == store && this.runId == runId
      ensures fresh(bus) && fresh(bus.journal) && fresh(bus.metrics) && initial == Loaded(store, runId)
    {
      bus := new EventBus();
      this.policy, this.world, this.store, this.runId := policy, world, store, runId;
      cost, groupOutputs := 0.0, map[];
      initial := Loaded(store, runId);
    }

    method EmitEvent(e: Event)
      requires Tracks(this)
      modifies bus, bus.journal, bus.metrics
      ensures Tracks(this) && Trace() == old(Trace()) + [Emit(e)]
    {
      MeasureSnoc(bus.log, Emit(e), Cost);
      bus.Emit(e);
    }

    /** One atomic action of one thread. */
    method Do(a: Action)
      requires Tracks(this) && !a.Record?
      modifies this`cost, bus, bus.journal, bus.metrics
      ensures Tracks(this) && Trace() == old(Trace()) + [a]
    {
      hide BusValid;
      if a.Emit? {
        EmitEvent(a.event);
      } else {
        MeasureSnoc(bus.log, a, Cost);
        if a.Charge? { cost := cost + a.amount; }
        bus.Miss(a);
      }
    }

    /** The main thread working alone. */
    method Perform(actions: seq<Action>)
      requires Tracks(this) && NoRecords(actions)
      modifies this`cost, bus, bus.journal, bus.metrics
      ensures Tracks(this) && Trace() == old(Trace()) + actions
    {
      hide Tracks;
      var i := 0;
      while i < |actions|
        invariant 0 <= i <= |actions| && Tracks(this) && Trace() == old(Trace()) + actions[..i]
      {
        Do(actions[i]);
        assert actions[..i + 1] == actions[..i] + [actions[i]];
        i := i + 1;
      }
      assert actions[..i] == actions;
    }

    /**
     The worker threads of a group: at each turn some thread that is not done performs its next
     action.  Nothing says which, so this covers every schedule.
     */
    method RunThreads(threads: seq<seq<Action>>) returns (sink: map<nat, Value>, ghost l: seq<Action>)
      requires Tracks(this) && forall k | 0 <= k < |threads| :: NoRecords(threads[k])
      modifies this`cost, bus, bus.journal, bus.metrics
      ensures Tracks(this) && Trace() == old(Trace()) + l
      ensures IsMerge(l, threads) && sink == SinkOf(l)
    {
      hide Tracks, Shares;
      var rest := threads;
      sink, l := map[], [];
      ghost var done: seq<seq<Action>> := seq(|threads|, _ => []);
      SharesStart(done, threads);
      while exists k :: 0 <= k < |rest| && rest[k] != []
        invariant |done| == |rest| == |threads| && Shares(done, rest, threads)
        invariant IsMerge(l, done) && sink == SinkOf(l)
        invariant Tracks(this) && Trace() == old(Trace()) + l
        decreases Left(rest)
      {
        var k :| 0 <= k < |rest| && rest[k] != [];
        var a := rest[k][0];
        SharesStep(done, rest, threads, k);
        LeftFalls(rest, k);
        MergeGrows(l, done, k, a);
        SinkSnoc(l, a);
        Do(a);
        if a.Put? { sink := sink[a.id := a.output]; }
        l := l + [a];
        done, rest := done[k := done[k] + [a]], rest[k := rest[k][1..]];
      }
      SharesEnd(done, rest, threads);
    }

    ghost predicate Follows(cfg: Config) {
      cfg.policy == policy && cfg.world == world
    }

    /** pool.submit for every member, ids assigned up front. */
    method Launch(tools: seq<Tool>, agent: Option<Agent>, first: nat, group: GroupId, b: Bindings, ghost cfg: Config)
      returns (runs: seq<StepRun>)
      requires Follows(cfg)
      ensures runs == MemberRuns(cfg, tools, agent, first, group, b)
    {
      runs := [];
      while |runs| < |tools|
        invariant |runs| <= |tools| && runs == MemberRuns(cfg, tools, agent, first, group, b)[..|runs|]
      {
        var run := RunTool(policy, world, tools[|runs|], agent, first + |runs|, Some(group), b, true);
        runs := runs + [run];
      }
    }

    /** Outputs in assignment order, read from the shared dict. */
    method Collect(sink: map<nat, Value>, first: nat, runs: seq<StepRun>) returns (outputs: seq<Value>)
      requires AllSucceeded(runs) && Sunk(sink, first, runs)
      ensures outputs == Outputs(runs)
    {
      outputs := [];
      while |outputs| < |runs|
        invariant |outputs| <= |runs| && outputs == Outputs(runs)[..|outputs|]
      {
        assert runs[|outputs|].output.Some?;
        outputs := outputs + [sink[first + |outputs|]];
      }
    }

    /** Start the group, run its members concurrently and wait for all of them. */
    method FanOut(step: Step, agent: Option<Agent>, first: nat, b: Bindings, ghost cfg: Config)
      returns (ok: bool, outputs: seq<Value>, ghost l: seq<Action>)
      requires Tracks(this) && Follows(cfg) && !step.Single?
      modifies this`cost, bus, bus.journal, bus.metrics
      ensures Tracks(this) && Trace() == old(Trace()) + l
      ensures var runs := MemberRuns(cfg, step.tools, agent, first, step.id, b);
        && ok == AllSucceeded(runs)
        && (ok ==> outputs == Outputs(runs))
        && Realizes(l, [Opened(step), Fork(Members(runs))])
    {
      hide Tracks, ToolRun, Sunk, NoRecords, Realizes;
      EmitEvent(GroupStarted(step.id, Names(step.tools), step.Consensus?));
      ghost var opening := Opened(step).actions;
      OneBlock(opening, Opened(step));
      var runs := Launch(step.tools, agent, first, step.id, b, cfg);
      ThreadsNoRecords(cfg, step.tools, agent, first, step.id, b);
      ghost var during;
      var sink;
      sink, during := RunThreads(Members(runs));
      FanIn(cfg, step.tools, agent, first, step.id, b, during);
      l := opening + during;
      RealizesSnoc(opening, [Opened(step)], during, Fork(Members(runs)));
      assert [Opened(step)] + [Fork(Members(runs))] == [Opened(step), Fork(Members(runs))];
      ok := AllSucceeded(runs);
      outputs := [];
      if ok { outputs := Collect(sink, first, runs); }
    }

    method CloseGroup(step: Step, ok: bool, ghost l: seq<Action>, ghost blocks: seq<Block>) returns (ghost l': seq<Action>)
      requires Tracks(this) && !step.Single? && Realizes(l, blocks)
      modifies bus, bus.journal, bus.metrics
      ensures Tracks(this) && Trace() == old(Trace()) + [Emit(GroupFinished(step.id, ok))]
      ensures l' == l + [Emit(GroupFinished(step.id, ok))] && Realizes(l', blocks + [Closed(step, ok)])
    {
      hide Tracks, Realizes;
      EmitEvent(GroupFinished(step.id, ok));
      l' := l + [Emit(GroupFinished(step.id, ok))];
      RealizesSnoc(l, blocks, [Emit(GroupFinished(step.id, ok))], Closed(step, ok));
    }

    /** A parallel block. */
    method RunGroup(e: Entry, first: nat, b: Bindings, ghost cfg: Config)
      returns (ok: bool, next: nat, ghost l: seq<Action>)
      requires Tracks(this) && Follows(cfg) && e.step.Parallel?
      modifies this`cost, this`groupOutputs, bus, bus.journal, bus.metrics
      ensures Tracks(this) && Trace() == old(Trace()) + l
      ensures var run := RunParallel(cfg, e, first, b);
        && ok == run.ok && next == run.next && Realizes(l, run.blocks)
        && groupOutputs == if run.cached.Some? then old(groupOutputs)[e.step.id := run.cached.value] else old(groupOutputs)
    {
      hide Tracks, Realizes, MemberRuns, Members;
      var outputs;
      ok, outputs, l := FanOut(e.step, e.agent, first, b, cfg);
      next := first + |e.step.tools|;
      if ok { groupOutputs := groupOutputs[e.step.id := outputs]; }
      ghost var blocks := [Opened(e.step), Fork(Members(MemberRuns(cfg, e.step.tools, e.agent, first, e.step.id, b)))];
      l := CloseGroup(e.step, ok, l, blocks);
      assert blocks + [Closed(e.step, ok)] == RunParallel(cfg, e, first, b).blocks;
    }

    /** The confidence-gated fallback, one more step of the same group. */
    method RunFallback(tool: Tool, agent: Option<Agent>, id: nat, group: GroupId, b: Bindings)
      returns (ok: bool)
      requires Tracks(this)
      modifies this`cost, bus, bus.journal, bus.metrics
      ensures Tracks(this)
      ensures var run := ToolRun(policy, world, tool, agent, id, Some(group), b, false);
        Trace() == old(Trace()) + run.actions && ok == run.output.Some?
    {
      hide Tracks, ToolRun;
      var run := RunTool(policy, world, tool, agent, id, Some(group), b, false);
      ToolRunAbout(policy, world, tool, agent, id, Some(group), b, false);
      AboutStepNoRecords(run.actions, id);
      Perform(run.actions);
      ok := run.output.Some?;
    }

    /** The synthetic step, and the fallback when the strategy's own number is too low. */
    method ApplyStrategy(step: Step, agent: Option<Agent>, votes: seq<Value>, id: nat, b: Bindings, ghost cfg: Config)
      returns (ok: bool, next: nat, agreed: Option<Value>)
      requires Tracks(this) && Follows(cfg) && step.Consensus?
      modifies this`cost, bus, bus.journal, bus.metrics
      ensures Tracks(this)
      ensures Trace() == old(Trace()) + Decide(cfg, step, agent, votes, id, b).actions
      ensures ok == Decide(cfg, step, agent, votes, id, b).ok && next == Decide(cfg, step, agent, votes, id, b).next
      ensures agreed == Settled(Decide(cfg, step, agent, votes, id, b))
    {
      hide Tracks, ToolRun, DecisionOpening, DecisionAgreed, DecisionRefused, NoRecords, StrategyError;
      ghost var d := Decide(cfg, step, agent, votes, id, b);
      DecisionNoRecords(step.name, id, step.id, "", Null, None);
      Perform(DecisionOpening(step.name, id, step.id));
      match step.strategy(id, votes) {
        case Disagreed(e) =>
          DecisionNoRecords(step.name, id, step.id, StrategyError(e), Null, None);
          Perform(DecisionRefused(step.name, id, step.id, StrategyError(e)));
          assert Trace() == old(Trace()) + d.actions;
          return false, id + 1, None;
        case Agreed(value, metadata) =>
          DecisionNoRecords(step.name, id, step.id, "", value, metadata);
          Perform(DecisionAgreed(step.name, id, step.id, value, metadata));
          if Triggers(step.fallback, metadata) {
            ok := RunFallback(step.fallback.value.tool, agent, id + 1, step.id, b);
            assert Trace() == old(Trace()) + d.actions;
            return ok, id + 2, if ok then Some(value) else None;
          }
          assert Trace() == old(Trace()) + d.actions;
          return true, id + 1, Some(value);
      }
    }

    /** A consensus block that runs its own voters. */
    method RunConsensus(e: Entry, first: nat, b: Bindings, ghost cfg: Config)
      returns (ok: bool, next: nat, agreed: Option<Value>, ghost l: seq<Action>)
      requires Tracks(this) && Follows(cfg) && e.step.Consensus? && e.step.source.None?
      modifies this`cost, bus, bus.journal, bus.metrics
      ensures Tracks(this) && Trace() == old(Trace()) + l
      ensures var run := RunVoters(cfg, e, first, b);
        ok == run.ok && next == run.next && agreed == run.bound && Realizes(l, run.blocks)
    {
      hide Tracks, Realizes, MemberRuns, Members, Decide;
      var votes;
      ok, votes, l := FanOut(e.step, e.agent, first, b, cfg);
      next, agreed := first + |e.step.tools|, None;
      ghost var blocks := [Opened(e.step), Fork(Members(MemberRuns(cfg, e.step.tools, e.agent, first, e.step.id, b)))];
      if ok {
        ghost var d := Decide(cfg, e.step, e.agent, votes, next, b);
        ok, next, agreed := ApplyStrategy(e.step, e.agent, votes, next, b, cfg);
        RealizesSnoc(l, blocks, d.actions, Solo(d.actions));
        l, blocks := l + d.actions, blocks + [Solo(d.actions)];
      }
      l := CloseGroup(e.step, ok, l, blocks);
      assert blocks + [Closed(e.step, ok)] == RunVoters(cfg, e, first, b).blocks;
    }

    /** A consensus block over an earlier parallel block's outputs: no voters are run. */
    method RunReusedConsensus(e: Entry, first: nat, b: Bindings, ghost cfg: Config)
      returns (ok: bool, next: nat, agreed: Option<Value>, ghost l: seq<Action>)
      requires Tracks(this) && Follows(cfg) && e.step.Consensus? && e.step.source.Some?
      modifies this`cost, bus, bus.journal, bus.metrics
      ensures Tracks(this) && Trace() == old(Trace()) + l
      ensures var run := RunReuse(cfg, e, first, b, groupOutputs);
        ok == run.ok && next == run.next && agreed == run.bound && Realizes(l, run.blocks)
    {
      hide Tracks, Realizes, Decide, DecisionOpening, DecisionRefused, NoRecords, NothingToReuse;
      EmitEvent(GroupStarted(e.step.id, Names(e.step.tools), true));
      OneBlock(Opened(e.step).actions, Opened(e.step));
      ghost var actions;
      if e.step.source.value in groupOutputs {
        var votes := groupOutputs[e.step.source.value];
        actions := Decide(cfg, e.step, e.agent, votes, first, b).actions;
        ok, next, agreed := ApplyStrategy(e.step, e.agent, votes, first, b, cfg);
      } else {
        actions := DecideNothing(e.step, first).actions;
        DecisionNoRecords(e.step.name, first, e.step.id, NothingToReuse(e.step.source.value), Null, None);
        Perform(DecisionOpening(e.step.name, first, e.step.id) + DecisionRefused(e.step.name, first, e.step.id, NothingToReuse(e.step.source.value)));
        ok, next, agreed := false, first + 1, None;
      }
      RealizesSnoc(Opened(e.step).actions, [Opened(e.step)], actions, Solo(actions));
      l := Opened(e.step).actions + actions;
      assert [Opened(e.step)] + [Solo(actions)] == [Opened(e.step), Solo(actions)];
      l := CloseGroup(e.step, ok, l, [Opened(e.step), Solo(actions)]);
      assert [Opened(e.step), Solo(actions)] + [Closed(e.step, ok)] == RunReuse(cfg, e, first, b, groupOutputs).blocks;
    }

    /** One entry of the workflow, whatever its kind. */
    method RunStep(e: Entry, first: nat, b: Bindings, ghost cfg: Config)
      returns (ok: bool, next: nat, bound: Option<Value>, ghost l: seq<Action>)
      requires Tracks(this) && Follows(cfg)
      modifies this`cost, this`groupOutputs, bus, bus.journal, bus.metrics
      ensures Tracks(this) && Trace() == old(Trace()) + l
      ensures var run := RunEntry(cfg, e, first, b, old(groupOutputs));
        && ok == run.ok && next == run.next && bound == run.bound && Realizes(l, run.blocks)
        && groupOutputs == CacheAfter(old(groupOutputs), e, run)
    {
      hide Tracks, Realizes, RunParallel, RunVoters, RunReuse, ToolRun;
      bound := None;
      match e.step {
        case Single(tool) =>
          var run := RunTool(policy, world, tool, e.agent, first, None, b, true);
          ToolRunQuiet(policy, world, tool, e.agent, first, None, b, true);
          Perform(run.actions);
          ok, next, bound, l := run.output.Some?, first + 1, run.output, run.actions;
          OneBlock(l, Solo(l));
        case Parallel(_, _) =>
          ok, next, l := RunGroup(e, first, b, cfg);
          ParallelBindsNothing(cfg, e, first, b);
        case Consensus(_, _, _, _, source, _) =>
          if source.None? {
            ok, next, bound, l := RunConsensus(e, first, b, cfg);
          } else {
            ok, next, bound, l := RunReusedConsensus(e, first, b, cfg);
          }
      }
    }

    /** checkpoint_store.record; false is CheckpointError. */
    method WriteRecord(i: nat, tool: string, output: Value) returns (ok: bool)
      requires Tracks(this) && StoreTracks(this) && store != NoStore
      modifies bus, bus.journal, bus.metrics, StoreObjects(store)
      ensures Tracks(this) && StoreTracks(this) && ok == Storable(output)
      ensures Trace() == if ok then old(Trace()) + [Record(i, tool, output)] else old(Trace())
    {
      hide BusValid, Storable, Reload;
      ghost var a := Record(i, tool, output);
      RecordedSnoc(store.OnDisk?, initial, bus.log, a);
      MeasureSnoc(bus.log, a, Cost);
      match store {
        case InMemory(memory) => ok := memory.Record(runId, i, tool, output);
        case OnDisk(file) => ok := file.Record(runId, i, tool, output);
      }
      if ok { bus.Miss(a); }
    }

    /** The last event of a run that was not aborted. */
    method Conclude(success: bool, ghost st: Progress, ghost cfg: Config, next: nat, bindings: Namespace)
      returns (ending: RunEnding)
      requires Tracks(this) && StoreTracks(this) && At(this, st, next, bindings)
      modifies bus, bus.journal, bus.metrics
      ensures Tracks(this) && StoreTracks(this)
      ensures ending == Finish(st, success).ending && At(this, Finish(st, success).state, next, bindings)
    {
      hide Tracks, Realizes, Recorded;
      var e := WorkflowFinished(success);
      RecordedSnoc(store.OnDisk?, initial, bus.log, Emit(e));
      RealizesSnoc(bus.log, st.blocks, [Emit(e)], Solo([Emit(e)]));
      EmitEvent(e);
      ending := Finished(success);
    }

    /** _replay_step, and the binding that goes with it. */
    method ReplayStep(e: Entry, saved: Saved, next: nat, bindings: Namespace, ghost st: Progress)
      requires Tracks(this) && StoreTracks(this) && At(this, st, next, bindings)
      modifies this`cost, bus, bus.journal, bus.metrics, bindings
      ensures Tracks(this) && StoreTracks(this) && At(this, Replay(st, e, saved), next + 1, bindings)
    {
      hide BusValid, Realizes, Recorded, Measure;
      var actions := ReplayActions(next, saved);
      RecordedQuiet(store.OnDisk?, initial, bus.log, actions);
      RealizesSnoc(bus.log, st.blocks, actions, Solo(actions));
      ReplayCostsNothing(bus.log, next, saved);
      Perform(actions);
      if e.asName.Some? { bindings.values := bindings.values[e.asName.value := saved.output]; }
    }

    /** Running an entry, binding its name and, for a sequential step with a store, recording it. */
    method Execute(i: nat, e: Entry, next: nat, bindings: Namespace, ghost st: Progress, ghost cfg: Config)
      returns (ok: bool, aborted: bool, next': nat, ghost st': Progress)
      requires Tracks(this) && StoreTracks(this) && At(this, st, next, bindings) && Follows(cfg)
      requires i < |cfg.entries| && e == cfg.entries[i] && cfg.storing == (store != NoStore)
      modifies this`cost, this`groupOutputs, bus, bus.journal, bus.metrics, bindings, StoreObjects(store)
      ensures Tracks(this) && StoreTracks(this) && At(this, st', next', bindings)
      ensures AfterRunning(cfg, i, st, RunEntry(cfg, e, st.next, st.bindings, st.cache)) ==
        if aborted then Stops(RunResult(st', Aborted)) else if ok then GoesOn(st') else Stops(Finish(st', false))
    {
      hide BusValid, Realizes, Recorded, Measure, RunEntry, Storable;
      ghost var run := RunEntry(cfg, e, st.next, st.bindings, st.cache);
      ghost var l;
      var bound;
      ghost var before := bus.log;
      ok, next', bound, l := RunStep(e, next, bindings.values, cfg);
      EntryQuietly(cfg, e, st.next, st.bindings, st.cache, l);
      RecordedQuiet(store.OnDisk?, initial, before, l);
      RealizesConcat(before, st.blocks, l, run.blocks);
      EntryCost(before, l, run);
      st' := Advance(st, e, run);
      aborted := false;
      if ok && e.asName.Some? && bound.Some? {
        bindings.values := bindings.values[e.asName.value := bound.value];
      }
      if ok && e.step.Single? && bound.Some? && store != NoStore {
        var recorded := WriteRecord(i, e.step.tool.name, bound.value);
        if recorded {
          ghost var a := Record(i, e.step.tool.name, bound.value);
          RealizesSnoc(before + l, st'.blocks, [a], Solo([a]));
          RecordCostsNothing(before + l, a);
          st' := st'.(blocks := st'.blocks + [Solo([a])]);
        } else {
          aborted := true;
        }
      }
    }

    /** The whole run: any schedule of the workers performs the plan, and ends in the plan's state. */
    method Run(entries: seq<Entry>, bindings: Namespace, ghost cfg: Config) returns (ending: RunEnding)
      requires Tracks(this) && StoreTracks(this) && Trace() == [] && cost == 0.0 && groupOutputs == map[]
      requires bindings.values == map[]
      requires cfg == Config(entries, policy, world, initial, store != NoStore)
      modifies this`cost, this`groupOutputs, bus, bus.journal, bus.metrics, bindings, StoreObjects(store)
      ensures Tracks(this) && StoreTracks(this)
      ensures ending == Plans.Run(cfg).ending && At(this, Plans.Run(cfg).state, Plans.Run(cfg).state.next, bindings)
    {
      hide BusValid, Realizes, Measure, AfterRunning, Finish, Replay, RunEntry, Recorded;
      var checkpoint := Loaded(store, runId);
      assert checkpoint == initial by { RecordedStart(store.OnDisk?, initial); }
      RecordedSnoc(store.OnDisk?, initial, bus.log, Emit(WorkflowStarted));
      OneBlock([Emit(WorkflowStarted)], Solo([Emit(WorkflowStarted)]));
      EmitEvent(WorkflowStarted);
      assert bus.log == [Emit(WorkflowStarted)];
      ghost var st := START;
      var next, i := 1, 0;
      assert Plans.Run(cfg) == Remaining(cfg, 0, st);
      while i < |entries|
        invariant 0 <= i <= |entries|
        invariant Tracks(this) && StoreTracks(this) && At(this, st, next, bindings)
        invariant Plans.Run(cfg) == Remaining(cfg, i, st)
      {
        var e := entries[i];
        RemainingTurn(cfg, i, st);
        if (policy.maxRuntime.Some? && world.late(i)) || (policy.maxCost.Some? && cost > policy.maxCost.value) {
          ending := Conclude(false, st, cfg, next, bindings);
          return;
        }
        if i in checkpoint && e.step.Single? {
          if checkpoint[i].tool != e.step.tool.name { return Aborted; }
          ReplayStep(e, checkpoint[i], next, bindings, st);
          st, next := Replay(st, e, checkpoint[i]), next + 1;
        } else {
          var ok, aborted;
          ghost var st';
          ok, aborted, next, st' := Execute(i, e, next, bindings, st, cfg);
          if aborted { return Aborted; }
          if !ok {
            ending := Conclude(false, st', cfg, next, bindings);
            return;
          }
          st := st';
        }
        i := i + 1;
      }
      RemainingEnd(cfg, st);
      ending := Conclude(true, st, cfg, next, bindings);
    }
  }

  /** The object's state is the plan's state. */
  ghost predicate At(s: Scheduler, st: Progress, next: nat, bindings: Namespace)
    reads s, s.bus, bindings
  {
    && next == st.next && bindings.values == st.bindings && s.groupOutputs == st.cache && s.cost == st.cost
    && Realizes(s.bus.log, st.blocks)
  }

  lemma {:induction false} RecordedQuiet(onDisk: bool, cp: Checkpoint, l: seq<Action>, m: seq<Action>)
    requires NoRecords(m)
    ensures Recorded(onDisk, cp, l + m) == Recorded(onDisk, cp, l)
    decreases |m|
  {
    if m == [] {
      assert l + m == l;
    } else {
      RecordedQuiet(onDisk, cp, l, Init(m));
      RecordedSnoc(onDisk, cp, l + Init(m), Last(m));
      assert l + Init(m) + [Last(m)] == l + m;
    }
  }

  lemma CostFollows(l: seq<Action>, blocks: seq<Block>)
    requires Realizes(l, blocks)
    ensures Measure(l, Cost) == Measure(Sequential(blocks), Cost)
  {
    LinearizationMeasure(l, blocks, Cost);
  }

  lemma RecordCostsNothing(l: seq<Action>, a: Action)
    requires a.Record?
    ensures Measure(l + [a], Cost) == Measure(l, Cost)
  {
    MeasureSnoc(l, a, Cost);
  }

  lemma EntryQuietly(cfg: Config, e: Entry, next: nat, b: Bindings, cache: map<GroupId, seq<Value>>, l: seq<Action>)
    requires Realizes(l, RunEntry(cfg, e, next, b, cache).blocks)
    ensures NoRecords(l)
  {
    hide RunEntry;
    EntryQuiet(cfg, e, next, b, cache);
    QuietRun(l, RunEntry(cfg, e, next, b, cache).blocks);
  }

  lemma EntryCost(before: seq<Action>, l: seq<Action>, run: EntryRun)
    requires Realizes(l, run.blocks)
    ensures Measure(before + l, Cost) == Measure(before, Cost) + Measure(Sequential(run.blocks), Cost)
  {
    MeasureConcat(before, l, Cost);
    CostFollows(l, run.blocks);
  }

  lemma ReplayCostsNothing(l: seq<Action>, id: nat, saved: Saved)
    ensures Measure(l + ReplayActions(id, saved), Cost) == Measure(l, Cost)
  {
    var a := ReplayActions(id, saved);
    MeasureSnoc(l, a[0], Cost);
    MeasureSnoc(l + [a[0]], a[1], Cost);
    MeasureSnoc(l + [a[0]] + [a[1]], a[2], Cost);
    assert l + [a[0]] + [a[1]] + [a[2]] == l + a;
  }

  lemma ParallelBindsNothing(cfg: Config, e: Entry, next: nat, b: Bindings)
    requires e.step.Parallel?
    ensures RunParallel(cfg, e, next, b).bound.None?
  {
  }
}
