/**
 What a run does, as a function of the workflow, the checkpoint it starts from and the answers of
 the outside world: the blocks of actions it performs and the state it ends in.
 The scheduler in Schedulers.dfy performs some linearization of exactly this.
 */
module Plans {
  import opened Wrappers
  import opened Values
  import opened Runtime
  import opened Merges
  import opened Blocks
  import opened Measures
  import opened Workers
  import Numerals

  /** A checkpointed step: which tool it ran, and what is replayed for it. */
  datatype Saved = Saved(tool: string, output: Value)

  type Checkpoint = map<nat, Saved>

  datatype Config = Config(
    entries: seq<Entry>,
    policy: Policy,
    world: World,
    checkpoint: Checkpoint,
    storing: bool)

  /** json.dumps accepts the value. */
  predicate Storable(v: Value) {
    match v
    case List(items) => forall i | 0 <= i < |items| :: Storable(items[i])
    case Tuple(parts) => forall i | 0 <= i < |parts| :: Storable(parts[i])
    case Dict(fields) => forall i | 0 <= i < |fields| :: Storable(fields[i].value)
    case Opaque(_) => false
    case _ => true
  }

  // ---------------------------------------------------------------- groups

  function MemberRuns(cfg: Config, tools: seq<Tool>, agent: Option<Agent>, first: nat, group: GroupId, b: Bindings)
    : (runs: seq<StepRun>)
    ensures |runs| == |tools|
  {
    seq(|tools|, i requires 0 <= i < |tools| =>
      ToolRun(cfg.policy, cfg.world, tools[i], agent, first + i, Some(group), b, true))
  }

  function Members(runs: seq<StepRun>): (members: seq<seq<Action>>)
    ensures |members| == |runs|
  {
    seq(|runs|, i requires 0 <= i < |runs| => runs[i].actions)
  }

  predicate AllSucceeded(runs: seq<StepRun>) {
    forall i | 0 <= i < |runs| :: runs[i].output.Some?
  }

  /** The members' outputs in the order the tools were given. */
  function Outputs(runs: seq<StepRun>): (outputs: seq<Value>)
    requires AllSucceeded(runs)
    ensures |outputs| == |runs|
  {
    seq(|runs|, i requires 0 <= i < |runs| => runs[i].output.value)
  }

  function Names(tools: seq<Tool>): (names: seq<string>)
    ensures |names| == |tools|
  {
    seq(|tools|, i requires 0 <= i < |tools| => tools[i].name)
  }

  // ---------------------------------------------------------------- consensus

  function NumberIn(m: Meta): Option<real> {
    match m
    case Number(x) => Some(x)
    case Flag(b) => Some(if b then 1.0 else 0.0)
    case Other(_) => None
  }

  /** The strategy reported a number below the threshold in the field the fallback watches. */
  predicate Triggers(fallback: Option<Fallback>, metadata: Option<map<string, Meta>>) {
    && fallback.Some? && metadata.Some?
    && fallback.value.field in metadata.value
    && NumberIn(metadata.value[fallback.value.field]).Some?
    && NumberIn(metadata.value[fallback.value.field]).value < fallback.value.below
  }

  function StrategyError(e: Exn): string {
    e.typeName + ": " + e.message
  }

  /** A block of actions, whether it succeeded, the next free step id, and the outputs of its steps. */
  datatype Piece = Piece(actions: seq<Action>, ok: bool, next: nat, outputs: seq<Value>)

  function DecisionOpening(name: string, id: nat, group: GroupId): seq<Action> {
    [Emit(StepStarted(id, name, Some(group), false)), Emit(ToolCalled(id, name, Some(group)))]
  }

  function DecisionRefused(name: string, id: nat, group: GroupId, error: string): seq<Action> {
    [Emit(ToolFailed(id, name, error, Some(group))), Emit(StepFinished(id, name, false, Some(group)))]
  }

  function DecisionAgreed(name: string, id: nat, group: GroupId, value: Value, metadata: Option<map<string, Meta>>): seq<Action> {
    [Put(id, value)]
    + (if metadata.Some? && metadata.value != map[]
       then [Emit(StrategyMetadataReported(id, name, metadata.value, Some(group)))] else [])
    + [Emit(ToolSucceeded(id, name, value, Some(group))), Emit(StepFinished(id, name, true, Some(group)))]
  }

  /** The synthetic step that reduces the votes, and the fallback it may trigger. */
  function Decide(cfg: Config, step: Step, agent: Option<Agent>, votes: seq<Value>, id: nat, b: Bindings): Piece
    requires step.Consensus?
  {
    match step.strategy(id, votes)
    case Disagreed(e) =>
      Piece(DecisionOpening(step.name, id, step.id) + DecisionRefused(step.name, id, step.id, StrategyError(e)), false, id + 1, [])
    case Agreed(value, metadata) =>
      var agreed := DecisionOpening(step.name, id, step.id) + DecisionAgreed(step.name, id, step.id, value, metadata);
      if Triggers(step.fallback, metadata) then
        var run := ToolRun(cfg.policy, cfg.world, step.fallback.value.tool, agent, id + 1, Some(step.id), b, false);
        Piece(agreed + run.actions, run.output.Some?, id + 2,
              [value] + if run.output.Some? then [run.output.value] else [])
      else Piece(agreed, true, id + 1, [value])
  }

  /** The agreed value, unless the group failed. */
  function Settled(d: Piece): Option<Value> {
    if d.ok && d.outputs != [] then Some(d.outputs[0]) else None
  }

  /** The synthetic step of a reuse that finds nothing cached. */
  function DecideNothing(step: Step, id: nat): Piece
    requires step.Consensus? && step.source.Some?
  {
    Piece(DecisionOpening(step.name, id, step.id) + DecisionRefused(step.name, id, step.id, NothingToReuse(step.source.value)), false, id + 1, [])
  }

  /** What a reuse of this block says when the block left nothing. */
  function NothingToReuse(source: GroupId): string {
    "source parallel group 'group-" + Numerals.Digits(source) + "' produced no outputs to reuse (it may have failed, or hasn't run yet)"
  }

  // ---------------------------------------------------------------- one entry

  /** What running one entry does to the scheduler's state. */
  datatype EntryRun = EntryRun(
    blocks: seq<Block>,
    ok: bool,
    next: nat,
    cached: Option<seq<Value>>,     // outputs a parallel group leaves for reuse
    bound: Option<Value>,           // what the entry's name is bound to
    outputs: seq<Value>)            // outputs of its steps, by step id

  function Opened(step: Step): Block
    requires !step.Single?
  {
    Solo([Emit(GroupStarted(step.id, Names(step.tools), step.Consensus?))])
  }

  function Closed(step: Step, ok: bool): Block
    requires !step.Single?
  {
    Solo([Emit(GroupFinished(step.id, ok))])
  }

  function RunSingle(cfg: Config, e: Entry, next: nat, b: Bindings): EntryRun
    requires e.step.Single?
  {
    var run := ToolRun(cfg.policy, cfg.world, e.step.tool, e.agent, next, None, b, true);
    EntryRun([Solo(run.actions)], run.output.Some?, next + 1, None, run.output,
             if run.output.Some? then [run.output.value] else [])
  }

  function RunParallel(cfg: Config, e: Entry, next: nat, b: Bindings): EntryRun
    requires e.step.Parallel?
  {
    var runs := MemberRuns(cfg, e.step.tools, e.agent, next, e.step.id, b);
    var ok := AllSucceeded(runs);
    var outputs := if ok then Outputs(runs) else [];
    EntryRun([Opened(e.step), Fork(Members(runs)), Closed(e.step, ok)], ok, next + |runs|,
             if ok then Some(outputs) else None, None, outputs)
  }

  function RunVoters(cfg: Config, e: Entry, next: nat, b: Bindings): EntryRun
    requires e.step.Consensus? && e.step.source.None?
  {
    var runs := MemberRuns(cfg, e.step.tools, e.agent, next, e.step.id, b);
    if !AllSucceeded(runs) then
      EntryRun([Opened(e.step), Fork(Members(runs)), Closed(e.step, false)], false, next + |runs|, None, None, [])
    else
      var votes := Outputs(runs);
      var decision := Decide(cfg, e.step, e.agent, votes, next + |runs|, b);
      EntryRun([Opened(e.step), Fork(Members(runs)), Solo(decision.actions), Closed(e.step, decision.ok)],
               decision.ok, decision.next, None,
               Settled(decision), votes + decision.outputs)
  }

  function RunReuse(cfg: Config, e: Entry, next: nat, b: Bindings, cache: map<GroupId, seq<Value>>): EntryRun
    requires e.step.Consensus? && e.step.source.Some?
  {
    var decision :=
      if e.step.source.value in cache then Decide(cfg, e.step, e.agent, cache[e.step.source.value], next, b)
      else DecideNothing(e.step, next);
    EntryRun([Opened(e.step), Solo(decision.actions), Closed(e.step, decision.ok)], decision.ok, decision.next, None,
             Settled(decision), decision.outputs)
  }

  function RunEntry(cfg: Config, e: Entry, next: nat, b: Bindings, cache: map<GroupId, seq<Value>>): EntryRun {
    match e.step
    case Single(_) => RunSingle(cfg, e, next, b)
    case Parallel(_, _) => RunParallel(cfg, e, next, b)
    case Consensus(_, _, _, _, source, _) =>
      if source.None? then RunVoters(cfg, e, next, b) else RunReuse(cfg, e, next, b, cache)
  }

  // ---------------------------------------------------------------- the whole run

  /** The scheduler's state between entries; `outputs` has one element per entry that succeeded. */
  datatype Progress = Progress(
    next: nat,
    bindings: Bindings,
    cache: map<GroupId, seq<Value>>,
    cost: real,
    blocks: seq<Block>,
    outputs: seq<seq<Value>>)

  datatype RunEnding = Finished(success: bool) | Aborted

  datatype RunResult = RunResult(state: Progress, ending: RunEnding)

  function Bind(b: Bindings, name: Option<string>, v: Option<Value>): Bindings {
    if name.Some? && v.Some? then b[name.value := v.value] else b
  }

  /** A parallel group that succeeded leaves its outputs for a later consensus. */
  function CacheAfter(cache: map<GroupId, seq<Value>>, e: Entry, run: EntryRun): map<GroupId, seq<Value>> {
    if e.step.Parallel? && run.cached.Some? then cache[e.step.id := run.cached.value] else cache
  }

  /** The state after an entry's blocks; a failed entry binds and caches nothing. */
  function Advance(st: Progress, e: Entry, run: EntryRun): Progress {
    Progress(
      run.next,
      if run.ok then Bind(st.bindings, e.asName, run.bound) else st.bindings,
      CacheAfter(st.cache, e, run),
      st.cost + Measure(Sequential(run.blocks), Cost),
      st.blocks + run.blocks,
      if run.ok then st.outputs + [run.outputs] else st.outputs)
  }

  function ReplayActions(id: nat, saved: Saved): seq<Action> {
    [Emit(StepStarted(id, saved.tool, None, true)),
     Emit(ToolSucceeded(id, saved.tool, saved.output, None)),
     Emit(StepFinished(id, saved.tool, true, None))]
  }

  function Replay(st: Progress, e: Entry, saved: Saved): Progress {
    st.(next := st.next + 1,
        bindings := Bind(st.bindings, e.asName, Some(saved.output)),
        blocks := st.blocks + [Solo(ReplayActions(st.next, saved))],
        outputs := st.outputs + [[saved.output]])
  }

  function Finish(st: Progress, success: bool): RunResult {
    RunResult(st.(blocks := st.blocks + [Solo([Emit(WorkflowFinished(success))])]), Finished(success))
  }

  predicate OverTime(cfg: Config, i: nat) {
    cfg.policy.maxRuntime.Some? && cfg.world.late(i)
  }

  predicate OverBudget(cfg: Config, cost: real) {
    cfg.policy.maxCost.Some? && cost > cfg.policy.maxCost.value
  }

  predicate Replays(cfg: Config, i: nat)
    requires i < |cfg.entries|
  {
    i in cfg.checkpoint && cfg.entries[i].step.Single?
  }

  /** After a successful sequential step with a store in use: the record, or CheckpointError. */
  function Store(st: Progress, i: nat, tool: string, output: Value): Result<Progress, ()> {
    if Storable(output) then Success(st.(blocks := st.blocks + [Solo([Record(i, tool, output)])]))
    else Failure(())
  }

  /** How one turn of the loop ends: the loop goes on in a new state, or the run is over. */
  datatype Turn = GoesOn(state: Progress) | Stops(result: RunResult)

  function TurnAt(cfg: Config, i: nat, st: Progress): Turn
    requires i < |cfg.entries|
  {
    var e := cfg.entries[i];
    if OverTime(cfg, i) || OverBudget(cfg, st.cost) then Stops(Finish(st, false))
    else if Replays(cfg, i) then
      if cfg.checkpoint[i].tool != e.step.tool.name then Stops(RunResult(st, Aborted))
      else GoesOn(Replay(st, e, cfg.checkpoint[i]))
    else AfterRunning(cfg, i, st, RunEntry(cfg, e, st.next, st.bindings, st.cache))
  }

  function AfterRunning(cfg: Config, i: nat, st: Progress, run: EntryRun): Turn
    requires i < |cfg.entries|
  {
    var e := cfg.entries[i];
    var st1 := Advance(st, e, run);
    if !run.ok then Stops(Finish(st1, false))
    else if e.step.Single? && cfg.storing && run.bound.Some? then
      match Store(st1, i, e.step.tool.name, run.bound.value)
      case Success(st2) => GoesOn(st2)
      case Failure(_) => Stops(RunResult(st1, Aborted))
    else GoesOn(st1)
  }

  /** The loop over the entries, from entry i on. */
  function RunFrom(cfg: Config, i: nat, st: Progress): RunResult
    requires i <= |cfg.entries|
    decreases |cfg.entries| - i
  {
    if i == |cfg.entries| then Finish(st, true)
    else match TurnAt(cfg, i, st)
      case GoesOn(st') => RunFrom(cfg, i + 1, st')
      case Stops(result) => result
  }

  const START := Progress(1, map[], map[], 0.0, [Solo([Emit(WorkflowStarted)])], [])

  function Run(cfg: Config): RunResult {
    RunFrom(cfg, 0, START)
  }

  /** `RunFrom` under a name that proofs can keep folded. */
  function Remaining(cfg: Config, i: nat, st: Progress): RunResult
    requires i <= |cfg.entries|
  {
    RunFrom(cfg, i, st)
  }

  lemma RemainingTurn(cfg: Config, i: nat, st: Progress)
    requires i < |cfg.entries|
    ensures Remaining(cfg, i, st) ==
      match TurnAt(cfg, i, st)
      case GoesOn(st') => Remaining(cfg, i + 1, st')
      case Stops(result) => result
  {
  }

  lemma RemainingEnd(cfg: Config, st: Progress)
    ensures Remaining(cfg, |cfg.entries|, st) == Finish(st, true)
  {
  }
}
