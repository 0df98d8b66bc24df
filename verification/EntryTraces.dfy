/**
 What an entry that was started leaves on every trace of every schedule: a full record for each of its
 steps, the step that reduces its votes, its fallback exactly when the strategy's own number is below the
 threshold, and its group's record with exactly its steps.
 */
module EntryTraces {
  import opened Wrappers
  import opened Values
  import opened Runtime
  import opened Merges
  import opened Blocks
  import opened Measures
  import opened Workers
  import Numerals
  import opened WorkerLaws
  import opened Plans
  import opened GroupLaws
  import opened StepLaws
  import opened RunLaws
  import opened Outcomes
  import opened Journals
  import opened StepRecords
  import opened Resume
  import opened Crashes
  import opened Jobs
  import opened GateLaws
  import opened GroupTags

  // ---------------------------------------------------------------- an entry's steps on a trace

  /** The blocks of an entry that is run from this state. */
  function BlocksOf(cfg: Config, i: nat, st: Progress): seq<Block>
    requires i < |cfg.entries|
  {
    RunEntry(cfg, cfg.entries[i], st.next, st.bindings, st.cache).blocks
  }

  function NextOf(cfg: Config, i: nat, st: Progress): nat
    requires i < |cfg.entries|
  {
    RunEntry(cfg, cfg.entries[i], st.next, st.bindings, st.cache).next
  }

  /** A block that belongs to no step and no group. */
  predicate Aside(rest: seq<Block>) {
    rest == [] || (|rest| == 1 && rest[0].Solo? && |rest[0].actions| == 1
                   && (KeyOf(rest[0].actions[0]) == OfRun || KeyOf(rest[0].actions[0]) == OfStore))
  }

  lemma AsideAvoids(rest: seq<Block>, key: Key)
    requires Aside(rest) && (key.OfStep? || key.OfGroup?)
    ensures Project(Sequential(rest), key) == []
  {
    if rest != [] {
      SequentialOne(rest[0]);
      assert rest == [rest[0]];
      ProjectNone(rest[0].actions, key);
    }
  }

  lemma FinishAside(st: Progress, success: bool)
    ensures var more := [Solo([Emit(WorkflowFinished(success))])]; Finish(st, success).state.blocks == st.blocks + more && Aside(more)
  {
  }

  /** The turn that starts an entry performs its blocks, and at most a record or the end of the run after them. */
  lemma TurnPerforms(cfg: Config, i: nat, st: Progress) returns (rest: seq<Block>)
    requires Starts(cfg, i, st)
    ensures Aside(rest)
    ensures match TurnAt(cfg, i, st)
      case GoesOn(st') => st'.blocks == st.blocks + BlocksOf(cfg, i, st) + rest && st'.next == NextOf(cfg, i, st)
      case Stops(r) => r.state.blocks == st.blocks + BlocksOf(cfg, i, st) + rest
  {
    hide RunEntry, Storable, Arrives, Measure, Finish;
    var run := RunEntry(cfg, cfg.entries[i], st.next, st.bindings, st.cache);
    var st1 := Advance(st, cfg.entries[i], run);
    FinishAside(st1, false);
    match TurnAt(cfg, i, st)
    case GoesOn(st') =>
      rest := if st'.blocks == st1.blocks then [] else [Last(st'.blocks)];
    case Stops(r) =>
      rest := if run.ok then [] else [Solo([Emit(WorkflowFinished(false))])];
  }

  lemma BlocksConcat3(a: seq<Block>, b: seq<Block>, c: seq<Block>, key: Key)
    ensures Project(Sequential(a + b + c), key) == Project(Sequential(a), key) + Project(Sequential(b), key) + Project(Sequential(c), key)
  {
    SequentialConcat(a + b, c);
    SequentialConcat(a, b);
    ProjectConcat(Sequential(a) + Sequential(b), Sequential(c), key);
    ProjectConcat(Sequential(a), Sequential(b), key);
  }

  lemma NoStepYet(st: Progress, id: nat)
    requires Orderly(st) && id >= st.next
    ensures Project(Sequential(st.blocks), OfStep(id)) == []
  {
  }

  lemma AddNothing<T>(a: seq<T>)
    ensures [] + a + [] == a
  {
  }

  /** On every schedule, a started entry's step does what the entry makes it do. */
  lemma EntryInTrace(cfg: Config, i: nat, st: Progress, l: seq<Action>, id: nat)
    requires Starts(cfg, i, st) && Linearizes(l, Run(cfg).state.blocks) && st.next <= id < NextOf(cfg, i, st)
    ensures Project(l, OfStep(id)) == Project(Sequential(BlocksOf(cfg, i, st)), OfStep(id))
  {
    hide Run, Orderly, BlocksOf, Aside, TurnAt, Starts, Separate;
    StartsArrives(cfg, i, st);
    var rest := TurnPerforms(cfg, i, st);
    ArrivesOrderly(cfg, i, st);
    NoStepYet(st, id);
    BlocksConcat3(st.blocks, BlocksOf(cfg, i, st), rest, OfStep(id));
    AsideAvoids(rest, OfStep(id));
    AddNothing(Project(Sequential(BlocksOf(cfg, i, st)), OfStep(id)));
    RunIsOrderly(cfg);
    LinearizationProjects(l, Run(cfg).state.blocks, OfStep(id));
    match TurnAt(cfg, i, st)
    case GoesOn(st') =>
      ArrivesNext(cfg, i, st);
      FirstId(st);
      WholeStays(cfg, i + 1, st', id);
    case Stops(r) => StopsRun(cfg, i, st);
  }

  lemma FirstId(st: Progress)
    requires Orderly(st)
    ensures st.next >= 1
  {
  }

  lemma StartsArrives(cfg: Config, i: nat, st: Progress)
    requires Starts(cfg, i, st)
    ensures Arrives(cfg, i, st) && i < |cfg.entries|
  {
  }

  lemma StopsRun(cfg: Config, i: nat, st: Progress)
    requires Arrives(cfg, i, st) && i < |cfg.entries| && TurnAt(cfg, i, st).Stops?
    ensures Run(cfg) == TurnAt(cfg, i, st).result
  {
    hide Arrives, TurnAt, Remaining, Run;
    RunIsRemaining(cfg);
    ArrivesRemaining(cfg, i, st);
    RemainingTurn(cfg, i, st);
  }

  /** A started entry's step with a job is that job's thread on every schedule. */
  lemma JobInTrace(cfg: Config, i: nat, st: Progress, l: seq<Action>, id: nat, job: Job)
    requires Starts(cfg, i, st) && HasJob(cfg, id, i, st, job) && Linearizes(l, Run(cfg).state.blocks)
    ensures IsThreadOf(Project(l, OfStep(id)), cfg, id, job)
  {
    hide Run, Starts, IsThreadOf, Idle, StepsIn, Arrives, RunEntry, JobAt;
    EntryInTrace(cfg, i, st, l, id);
    EntryStaffed(Crew(cfg, cfg.entries[i], st.bindings, st.next), st.cache);
  }

  /**
   Every tool a started entry runs leaves its full record, on every schedule: status, output or error text,
   approval, usage, and its retries with their texts.
   */
  lemma StepIsRecorded(cfg: Config, i: nat, st: Progress, l: seq<Action>, id: nat, job: Job)
    requires Starts(cfg, i, st) && HasJob(cfg, id, i, st, job) && Linearizes(l, Run(cfg).state.blocks)
    ensures StepRecordOf(JournalOf(l), id).Some?
    ensures IsRecordOf(StepRecordOf(JournalOf(l), id).value, cfg.policy, cfg.world, job.tool, job.agent, id, job.group, job.bindings)
  {
    hide Run, Starts, HasJob, ToolRun, IsRecordOf, JournalOf, StepRecordOf;
    JobInTrace(cfg, i, st, l, id, job);
    var mine := Project(l, OfStep(id));
    var sink :| mine == ToolRun(cfg.policy, cfg.world, job.tool, job.agent, id, job.group, job.bindings, sink).actions;
    ToolRunRecorded(cfg.policy, cfg.world, job.tool, job.agent, id, job.group, job.bindings, sink);
    RecordIsView(l, id);
  }

  /** A replayed step's record: started as replayed, its recorded output, no call, no retry and no charge. */
  lemma ReplayIsRecorded(r: Config, c: Config, i: nat, st: Progress, l: seq<Action>)
    requires Reference(r) && Kin(c, r) && Faithful(r, c.checkpoint)
    requires Arrives(c, i, st) && i in c.checkpoint && !Cut(c, i, st)
    requires Linearizes(l, Run(c).state.blocks)
    ensures var id, saved := st.next, c.checkpoint[i];
      StepRecordOf(JournalOf(l), id) == Some(StepRecord(id, saved.tool, None, true, Some(true), saved.output, None, 0, [], None, None, None))
  {
    hide Run, Reference, Kin, Faithful, Arrives, Cut, JournalOf;
    RecordedStepsAreReplayed(r, c, i, st, l);
    RecordIsView(l, st.next);
    ReplayRecorded(st.next, c.checkpoint[i]);
  }

  // ---------------------------------------------------------------- votes

  /** Every member ended with an output. */
  predicate AllVoted(cfg: Config, e: Entry, st: Progress)
    requires !e.step.Single?
  {
    forall k | 0 <= k < |e.step.tools| :: EndOf(cfg.policy, cfg.world, e.step.tools[k], e.agent, st.next + k, st.bindings).Returned?
  }

  /** What a consensus reduces: its own voters' outputs in order, or an earlier block's. */
  function VotesOf(cfg: Config, e: Entry, st: Progress): Option<seq<Value>>
    requires e.step.Consensus?
  {
    if e.step.source.Some? then
      if e.step.source.value in st.cache then Some(st.cache[e.step.source.value]) else None
    else if AllVoted(cfg, e, st) then
      Some(seq(|e.step.tools|, k requires 0 <= k < |e.step.tools| =>
        EndOf(cfg.policy, cfg.world, e.step.tools[k], e.agent, st.next + k, st.bindings).value))
    else None
  }

  lemma MembersVote(cfg: Config, e: Entry, st: Progress)
    requires !e.step.Single?
    ensures var runs := MemberRuns(cfg, e.step.tools, e.agent, st.next, e.step.id, st.bindings);
      && (AllSucceeded(runs) <==> AllVoted(cfg, e, st))
      && (AllSucceeded(runs) ==> forall k | 0 <= k < |runs| ::
            Outputs(runs)[k] == EndOf(cfg.policy, cfg.world, e.step.tools[k], e.agent, st.next + k, st.bindings).value)
  {
    hide ToolRun, EndOf;
    var runs := MemberRuns(cfg, e.step.tools, e.agent, st.next, e.step.id, st.bindings);
    forall k | 0 <= k < |runs|
      ensures var end := EndOf(cfg.policy, cfg.world, e.step.tools[k], e.agent, st.next + k, st.bindings);
        runs[k].output == if end.Returned? then Some(end.value) else None
    {
      OutputIs(cfg.policy, cfg.world, e.step.tools[k], e.agent, st.next + k, Some(e.step.id), st.bindings, true);
    }
    if AllSucceeded(runs) {
      forall k | 0 <= k < |e.step.tools|
        ensures EndOf(cfg.policy, cfg.world, e.step.tools[k], e.agent, st.next + k, st.bindings).Returned?
      {
        assert runs[k].output.Some?;
      }
    }
  }

  /** The id of the step that reduces the votes. */
  function DecisionId(e: Entry, st: Progress): nat
    requires e.step.Consensus?
  {
    st.next + Voters(e)
  }

  /** From the step that reduces the votes on, the entry's actions are the reduction's. */
  ghost predicate Reduces(cfg: Config, i: nat, st: Progress, votes: seq<Value>)
    requires i < |cfg.entries| && cfg.entries[i].step.Consensus?
  {
    var e := cfg.entries[i];
    var d := Decide(cfg, e.step, e.agent, votes, DecisionId(e, st), st.bindings);
    && NextOf(cfg, i, st) == d.next
    && forall id: nat | id >= DecisionId(e, st) :: Project(Sequential(BlocksOf(cfg, i, st)), OfStep(id)) == Project(d.actions, OfStep(id))
  }

  lemma VotersShape(cfg: Config, i: nat, st: Progress, votes: seq<Value>)
    requires i < |cfg.entries| && cfg.entries[i].step.Consensus? && cfg.entries[i].step.source.None?
    requires VotesOf(cfg, cfg.entries[i], st) == Some(votes)
    ensures var e := cfg.entries[i];
      var runs := MemberRuns(cfg, e.step.tools, e.agent, st.next, e.step.id, st.bindings);
      var d := Decide(cfg, e.step, e.agent, votes, DecisionId(e, st), st.bindings);
      BlocksOf(cfg, i, st) == [Opened(e.step), Fork(Members(runs)), Solo(d.actions), Closed(e.step, d.ok)] && NextOf(cfg, i, st) == d.next
  {
    hide Decide, MemberRuns, Members, Opened, Closed, EndOf, AllVoted, RunReuse;
    var e := cfg.entries[i];
    MembersVote(cfg, e, st);
    assert Outputs(MemberRuns(cfg, e.step.tools, e.agent, st.next, e.step.id, st.bindings)) == votes;
  }

  lemma VotersReduce(cfg: Config, i: nat, st: Progress, votes: seq<Value>)
    requires i < |cfg.entries| && cfg.entries[i].step.Consensus? && cfg.entries[i].step.source.None?
    requires VotesOf(cfg, cfg.entries[i], st) == Some(votes)
    ensures Reduces(cfg, i, st, votes)
  {
    hide Decide, MemberRuns, Members, Opened, Closed, BlocksOf, NextOf, VotesOf, Project, Sequential;
    VotersShape(cfg, i, st, votes);
    var e := cfg.entries[i];
    var d := Decide(cfg, e.step, e.agent, votes, DecisionId(e, st), st.bindings);
    var runs := MemberRuns(cfg, e.step.tools, e.agent, st.next, e.step.id, st.bindings);
    forall id: nat | id >= DecisionId(e, st) ensures Project(Sequential(BlocksOf(cfg, i, st)), OfStep(id)) == Project(d.actions, OfStep(id)) {
      MembersAvoid(cfg, e, st, id);
      BracketsAvoid(e.step, d.ok, id);
      FourProject(Opened(e.step), Fork(Members(runs)), Solo(d.actions), Closed(e.step, d.ok), OfStep(id));
      AddNothing(Project(d.actions, OfStep(id)));
    }
  }

  lemma ReuseReduces(cfg: Config, i: nat, st: Progress, votes: seq<Value>)
    requires i < |cfg.entries| && cfg.entries[i].step.Consensus? && cfg.entries[i].step.source.Some?
    requires VotesOf(cfg, cfg.entries[i], st) == Some(votes)
    ensures Reduces(cfg, i, st, votes)
  {
    hide Decide, Opened, Closed, EndOf, AllVoted, RunVoters;
    var e := cfg.entries[i];
    var d := Decide(cfg, e.step, e.agent, votes, DecisionId(e, st), st.bindings);
    forall id: nat | id >= DecisionId(e, st) ensures Project(Sequential(BlocksOf(cfg, i, st)), OfStep(id)) == Project(d.actions, OfStep(id)) {
      BracketsAvoid(e.step, d.ok, id);
      ThreeProject(Opened(e.step), Solo(d.actions), Closed(e.step, d.ok), OfStep(id));
      AddNothing(Project(d.actions, OfStep(id)));
    }
  }

  lemma VotesAreReduced(cfg: Config, i: nat, st: Progress, votes: seq<Value>)
    requires i < |cfg.entries| && cfg.entries[i].step.Consensus? && VotesOf(cfg, cfg.entries[i], st) == Some(votes)
    ensures Reduces(cfg, i, st, votes)
  {
    hide Reduces, VotesOf;
    if cfg.entries[i].step.source.None? { VotersReduce(cfg, i, st, votes); } else { ReuseReduces(cfg, i, st, votes); }
  }

  lemma MembersAvoid(cfg: Config, e: Entry, st: Progress, id: nat)
    requires !e.step.Single? && id >= st.next + |e.step.tools|
    ensures Project(InOrder(Fork(Members(MemberRuns(cfg, e.step.tools, e.agent, st.next, e.step.id, st.bindings)))), OfStep(id)) == []
  {
    hide Moves;
    MembersMove(cfg, e.step.tools, e.agent, st.next, e.step.id, st.bindings);
    var runs := MemberRuns(cfg, e.step.tools, e.agent, st.next, e.step.id, st.bindings);
    MovesSteps(Flatten(Members(runs)), st.next, st.next + |e.step.tools|, AllSucceeded(runs));
  }

  lemma BracketsAvoid(step: Step, ok: bool, id: nat)
    requires !step.Single?
    ensures Project(InOrder(Opened(step)), OfStep(id)) == [] && Project(InOrder(Closed(step, ok)), OfStep(id)) == []
  {
    ProjectNone(InOrder(Opened(step)), OfStep(id));
    ProjectNone(InOrder(Closed(step, ok)), OfStep(id));
  }

  lemma ThreeProject(a: Block, b: Block, c: Block, key: Key)
    ensures Project(Sequential([a, b, c]), key) == Project(InOrder(a), key) + Project(InOrder(b), key) + Project(InOrder(c), key)
  {
    hide InOrder;
    SequentialThree(a, b, c);
    ProjectConcat(InOrder(a) + InOrder(b), InOrder(c), key);
    ProjectConcat(InOrder(a), InOrder(b), key);
  }

  lemma FourProject(a: Block, b: Block, c: Block, d: Block, key: Key)
    ensures Project(Sequential([a, b, c, d]), key) ==
      Project(InOrder(a), key) + Project(InOrder(b), key) + Project(InOrder(c), key) + Project(InOrder(d), key)
  {
    hide InOrder;
    SequentialFour(a, b, c, d);
    ProjectConcat(InOrder(a) + InOrder(b) + InOrder(c), InOrder(d), key);
    ProjectConcat(InOrder(a) + InOrder(b), InOrder(c), key);
    ProjectConcat(InOrder(a), InOrder(b), key);
  }

  /** What the step that reduces these votes does. */
  function Reduction(step: Step, votes: seq<Value>, id: nat): seq<Action>
    requires step.Consensus?
  {
    match step.strategy(id, votes)
    case Disagreed(x) => DecisionOpening(step.name, id, step.id) + DecisionRefused(step.name, id, step.id, x.typeName + ": " + x.message)
    case Agreed(value, metadata) => DecisionOpening(step.name, id, step.id) + DecisionAgreed(step.name, id, step.id, value, metadata)
  }

  lemma ReductionIs(cfg: Config, step: Step, agent: Option<Agent>, votes: seq<Value>, id: nat, b: Bindings)
    requires step.Consensus?
    ensures Project(Decide(cfg, step, agent, votes, id, b).actions, OfStep(id)) == Reduction(step, votes, id)
    ensures Decide(cfg, step, agent, votes, id, b).next > id
  {
    hide ToolRun, Whole, DecisionOpening, DecisionAgreed, DecisionRefused;
    match step.strategy(id, votes)
    case Disagreed(x) =>
      RefusalWhole(step.name, id, step.id, StrategyError(x));
      OwnProjection(Reduction(step, votes, id), id, false);
    case Agreed(value, metadata) =>
      AgreementWhole(step.name, id, step.id, value, metadata);
      OwnProjection(Reduction(step, votes, id), id, true);
      if Triggers(step.fallback, metadata) {
        var run := ToolRun(cfg.policy, cfg.world, step.fallback.value.tool, agent, id + 1, Some(step.id), b, false);
        ToolRunAbout(cfg.policy, cfg.world, step.fallback.value.tool, agent, id + 1, Some(step.id), b, false);
        ProjectNone(run.actions, OfStep(id));
        ProjectConcat(Reduction(step, votes, id), run.actions, OfStep(id));
      }
  }

  /** The record of the step that reduced the votes, on every schedule: what the strategy said of them. */
  lemma DecisionIsRecorded(cfg: Config, i: nat, st: Progress, l: seq<Action>, votes: seq<Value>)
    requires Starts(cfg, i, st) && Linearizes(l, Run(cfg).state.blocks)
    requires cfg.entries[i].step.Consensus? && VotesOf(cfg, cfg.entries[i], st) == Some(votes)
    ensures var step, id := cfg.entries[i].step, DecisionId(cfg.entries[i], st);
      StepRecordOf(JournalOf(l), id) == Some(
        match step.strategy(id, votes)
        case Agreed(value, metadata) =>
          StepRecord(id, step.name, Some(step.id), false, Some(true), value, None, 0, [], None,
                     if metadata == Some(map[]) then None else metadata, None)
        case Disagreed(x) =>
          StepRecord(id, step.name, Some(step.id), false, Some(false), Null, Some(x.typeName + ": " + x.message), 0, [], None, None, None))
  {
    StartsWithin(cfg, i, st);
    hide Run, Starts, JournalOf, StepRecordOf, Decide, BlocksOf, NextOf, VotesOf, DecisionOpening, DecisionAgreed, DecisionRefused;
    var e := cfg.entries[i];
    var id := DecisionId(e, st);
    VotesAreReduced(cfg, i, st, votes);
    ReductionIs(cfg, e.step, e.agent, votes, id, st.bindings);
    EntryInTrace(cfg, i, st, l, id);
    RecordIsView(l, id);
    match e.step.strategy(id, votes)
    case Agreed(value, metadata) => AgreementRecorded(e.step.name, id, e.step.id, value, metadata);
    case Disagreed(x) => RefusalRecorded(e.step.name, id, e.step.id, x.typeName + ": " + x.message);
  }

  /** A consensus over an earlier block that left no outputs fails in its one step, and says why. */
  lemma NothingIsRecorded(cfg: Config, i: nat, st: Progress, l: seq<Action>)
    requires Starts(cfg, i, st) && Linearizes(l, Run(cfg).state.blocks) && i < |cfg.entries|
    requires cfg.entries[i].step.Consensus? && cfg.entries[i].step.source.Some? && cfg.entries[i].step.source.value !in st.cache
    ensures NextOf(cfg, i, st) == st.next + 1
    ensures var step := cfg.entries[i].step;
      StepRecordOf(JournalOf(l), st.next) == Some(
        StepRecord(st.next, step.name, Some(step.id), false, Some(false), Null,
                   Some("source parallel group 'group-" + Numerals.Digits(step.source.value) + "' produced no outputs to reuse (it may have failed, or hasn't run yet)"),
                   0, [], None, None, None))
  {
    hide Run, Starts, JournalOf, StepRecordOf, DecisionOpening, DecisionRefused, BlocksOf, NextOf;
    var step, id := cfg.entries[i].step, st.next;
    NothingShape(cfg, i, st);
    EntryInTrace(cfg, i, st, l, id);
    RecordIsView(l, id);
    RefusalRecorded(step.name, id, step.id, NothingToReuse(step.source.value));
  }

  lemma NothingShape(cfg: Config, i: nat, st: Progress)
    requires i < |cfg.entries| && cfg.entries[i].step.Consensus? && cfg.entries[i].step.source.Some?
    requires cfg.entries[i].step.source.value !in st.cache
    ensures var step := cfg.entries[i].step;
      && NextOf(cfg, i, st) == st.next + 1
      && Project(Sequential(BlocksOf(cfg, i, st)), OfStep(st.next)) ==
           DecisionOpening(step.name, st.next, step.id) + DecisionRefused(step.name, st.next, step.id, NothingToReuse(step.source.value))
  {
    hide DecisionOpening, DecisionRefused, Opened, Closed, RunVoters, Decide, Project, Sequential, Whole;
    var step, id := cfg.entries[i].step, st.next;
    var d := DecideNothing(step, id);
    assert BlocksOf(cfg, i, st) == [Opened(step), Solo(d.actions), Closed(step, d.ok)];
    RefusalWhole(step.name, id, step.id, NothingToReuse(step.source.value));
    OwnProjection(d.actions, id, false);
    BracketsAvoid(step, d.ok, id);
    ThreeProject(Opened(step), Solo(d.actions), Closed(step, d.ok), OfStep(id));
    AddNothing(d.actions);
  }

  // ---------------------------------------------------------------- the fallback

  /** The strategy reported a number, or a truth value as a number, below the threshold in the watched field. */
  predicate ReportsBelow(metadata: Option<map<string, Meta>>, field: string, below: real) {
    metadata.Some? && field in metadata.value &&
    match metadata.value[field]
    case Number(x) => x < below
    case Flag(truth) => (if truth then 1.0 else 0.0) < below
    case Other(_) => false
  }

  lemma FallbackJobIff(cfg: Config, i: nat, st: Progress, votes: seq<Value>, value: Value, metadata: Option<map<string, Meta>>, f: Fallback)
    requires i < |cfg.entries| && cfg.entries[i].step.Consensus? && VotesOf(cfg, cfg.entries[i], st) == Some(votes)
    requires cfg.entries[i].step.strategy(DecisionId(cfg.entries[i], st), votes) == Agreed(value, metadata)
    requires cfg.entries[i].step.fallback == Some(f)
    ensures NextOf(cfg, i, st) == DecisionId(cfg.entries[i], st) + if ReportsBelow(metadata, f.field, f.below) then 2 else 1
  {
    hide ToolRun, DecisionOpening, DecisionAgreed, BlocksOf, NextOf, VotesOf, DecisionRefused;
    VotesAreReduced(cfg, i, st, votes);
  }

  /** The job of a consensus' fallback. */
  function FallbackJob(e: Entry, f: Fallback, st: Progress): Job
    requires e.step.Consensus?
  {
    Job(f.tool, e.agent, Some(e.step.id), st.bindings)
  }

  /** Each step of a run belongs to an entry the run reached. */
  ghost predicate Owned(cfg: Config, id: nat, j: nat, sj: Progress) {
    Arrives(cfg, j, sj) && j < |cfg.entries| && sj.next <= id < NextOf(cfg, j, sj)
  }

  lemma {:induction false} OwnerBefore(cfg: Config, k: nat, last: Progress, id: nat) returns (j: nat, sj: Progress)
    requires Arrives(cfg, k, last) && 1 <= id < last.next
    ensures Owned(cfg, id, j, sj)
    decreases k
  {
    hide Arrives, TurnAt, NextOf;
    if k == 0 {
      ArrivesAtStart(cfg, last);
      assert false;
    } else {
      ArrivesWithin(cfg, k, last);
      var before := ArrivesBefore(cfg, k, last);
      NextIs(cfg, k - 1, before);
      if id < before.next {
        j, sj := OwnerBefore(cfg, k - 1, before, id);
      } else {
        j, sj := k - 1, before;
      }
    }
  }

  lemma NextIs(cfg: Config, i: nat, st: Progress)
    requires i < |cfg.entries| && TurnAt(cfg, i, st).GoesOn?
    ensures TurnAt(cfg, i, st).state.next == NextOf(cfg, i, st)
  {
    hide TurnAt, RunEntry;
    TurnNext(cfg, i, st);
  }

  lemma StoppedNext(cfg: Config, i: nat, st: Progress)
    requires Arrives(cfg, i, st) && i < |cfg.entries| && TurnAt(cfg, i, st).Stops?
    ensures TurnAt(cfg, i, st).result.state.next <= NextOf(cfg, i, st)
  {
    hide Measure, Storable, Arrives;
    EntryAdvances(cfg, cfg.entries[i], st.next, st.bindings, st.cache);
    hide RunEntry;
  }

  lemma Owner(cfg: Config, id: nat) returns (j: nat, sj: Progress)
    requires 1 <= id < Run(cfg).state.next
    ensures Owned(cfg, id, j, sj)
  {
    hide Arrives, TurnAt, NextOf, Run;
    var k, last := RunEnds(cfg);
    if id < last.next {
      j, sj := OwnerBefore(cfg, k, last, id);
    } else {
      EndNext(cfg, k, last);
      j, sj := k, last;
    }
  }

  lemma EndNext(cfg: Config, k: nat, last: Progress)
    requires EndsAt(cfg, k, last) && Run(cfg).state.next > last.next
    ensures k < |cfg.entries| && Run(cfg).state.next <= NextOf(cfg, k, last)
  {
    hide TurnAt, NextOf;
    ArrivesWithin(cfg, k, last);
    if k < |cfg.entries| { StoppedNext(cfg, k, last); }
  }

  /** A step tagged with a group on some trace belongs to an entry with that tag. */
  lemma TaggedOwner(cfg: Config, l: seq<Action>, a: Action, g: GroupId) returns (j: nat, sj: Progress)
    requires Linearizes(l, Run(cfg).state.blocks) && a in l && a.Emit? && a.event.StepStarted? && a.event.group == Some(g)
    ensures Owned(cfg, a.event.id, j, sj) && EntryTag(cfg.entries[j]) == Some(g)
  {
    hide Run, WholeStep, Starts, NextOf, BlocksOf, Owned;
    var id := a.event.id;
    RunSteps(cfg, l);
    ProjectElements(l, OfStep(id));
    assert a in Project(l, OfStep(id));
    j, sj := Owner(cfg, id);
    OwnedParts(cfg, id, j, sj);
    if Starts(cfg, j, sj) {
      EntryInTrace(cfg, j, sj, l, id);
      ProjectElements(Sequential(BlocksOf(cfg, j, sj)), OfStep(id));
      TagInBlocks(cfg, j, sj, a);
    } else {
      NotStartedTrace(cfg, j, sj, l, id, a);
    }
  }

  lemma OwnedParts(cfg: Config, id: nat, j: nat, sj: Progress)
    requires Owned(cfg, id, j, sj)
    ensures Arrives(cfg, j, sj) && j < |cfg.entries| && sj.next <= id < NextOf(cfg, j, sj)
  {
  }

  lemma TagInBlocks(cfg: Config, j: nat, sj: Progress, a: Action)
    requires j < |cfg.entries| && a in Sequential(BlocksOf(cfg, j, sj)) && a.Emit? && a.event.StepStarted?
    ensures EntryTag(cfg.entries[j]) == a.event.group
  {
    hide RunEntry, GroupOpens, EntryTag;
    EntryTagged(cfg, cfg.entries[j], sj.next, sj.bindings, sj.cache);
    var l := Sequential(BlocksOf(cfg, j, sj));
    var n :| 0 <= n < |l| && l[n] == a;
    assert IsTagged(l[n], EntryTag(cfg.entries[j]));
  }

  /** An entry that was not started was replayed, or nothing of it is on the trace. */
  lemma NotStartedTrace(cfg: Config, j: nat, sj: Progress, l: seq<Action>, id: nat, a: Action)
    requires Arrives(cfg, j, sj) && j < |cfg.entries| && !Starts(cfg, j, sj) && sj.next <= id < NextOf(cfg, j, sj)
    requires Linearizes(l, Run(cfg).state.blocks) && a in Project(l, OfStep(id)) && a.Emit? && a.event.StepStarted?
    ensures a.event.group.None?
  {
    hide Run, NextOf, Arrives, Starts, TurnAt, Orderly, Separate;
    ArrivesOrderly(cfg, j, sj);
    RunIsOrderly(cfg);
    LinearizationProjects(l, Run(cfg).state.blocks, OfStep(id));
    NoStepYet(sj, id);
    if TurnAt(cfg, j, sj).Stops? {
      CutTrace(cfg, j, sj, id);
    } else {
      var st' := TurnAt(cfg, j, sj).state;
      NextIs(cfg, j, sj);
      ArrivesNext(cfg, j, sj);
      FirstId(sj);
      WholeStays(cfg, j + 1, st', id);
      ReplayTrace(cfg, j, sj, id, a);
    }
  }

  lemma CutTrace(cfg: Config, j: nat, sj: Progress, id: nat)
    requires Arrives(cfg, j, sj) && j < |cfg.entries| && !Starts(cfg, j, sj) && TurnAt(cfg, j, sj).Stops?
    requires Project(Sequential(sj.blocks), OfStep(id)) == []
    ensures Project(Sequential(Run(cfg).state.blocks), OfStep(id)) == []
  {
    hide Run, Arrives, TurnAt, Starts;
    StopsRun(cfg, j, sj);
    CutLeaves(cfg, j, sj);
    FinishAside(sj, false);
    var more := [Solo([Emit(WorkflowFinished(false))])];
    SequentialConcat(sj.blocks, more);
    ProjectConcat(Sequential(sj.blocks), Sequential(more), OfStep(id));
    AsideAvoids(more, OfStep(id));
  }

  lemma CutLeaves(cfg: Config, j: nat, sj: Progress)
    requires Arrives(cfg, j, sj) && j < |cfg.entries| && !Starts(cfg, j, sj) && TurnAt(cfg, j, sj).Stops?
    ensures TurnAt(cfg, j, sj).result == Finish(sj, false) || TurnAt(cfg, j, sj).result == RunResult(sj, Aborted)
  {
    hide Arrives, AfterRunning, RunEntry, Finish;
  }

  lemma ReplayTrace(cfg: Config, j: nat, sj: Progress, id: nat, a: Action)
    requires Arrives(cfg, j, sj) && j < |cfg.entries| && !Starts(cfg, j, sj) && TurnAt(cfg, j, sj).GoesOn?
    requires Project(Sequential(sj.blocks), OfStep(id)) == []
    requires a in Project(Sequential(TurnAt(cfg, j, sj).state.blocks), OfStep(id)) && a.Emit? && a.event.StepStarted?
    ensures a.event.group.None?
  {
    hide Arrives, AfterRunning, RunEntry, ReplayActions;
    var actions := ReplayActions(sj.next, cfg.checkpoint[j]);
    SequentialSnoc(sj.blocks, Solo(actions));
    ProjectConcat(Sequential(sj.blocks), actions, OfStep(id));
    ProjectElements(actions, OfStep(id));
    ReplayUntagged(sj.next, cfg.checkpoint[j], a);
  }

  lemma ReplayUntagged(id: nat, saved: Saved, a: Action)
    requires a in ReplayActions(id, saved) && a.Emit? && a.event.StepStarted?
    ensures a.event.group.None?
  {
  }

  /**
   The confidence gate.  On every schedule of every run whose groups are distinct: where the strategy of a
   consensus with a fallback agreed, the next step starts the fallback's tool in that group exactly when
   the strategy reported a number below the threshold in the watched field.
   */
  lemma FallbackStartsIff(cfg: Config, i: nat, st: Progress, l: seq<Action>, votes: seq<Value>, value: Value,
                          metadata: Option<map<string, Meta>>, f: Fallback)
    requires Starts(cfg, i, st) && Linearizes(l, Run(cfg).state.blocks) && DistinctGroups(cfg.entries)
    requires cfg.entries[i].step.Consensus? && VotesOf(cfg, cfg.entries[i], st) == Some(votes)
    requires cfg.entries[i].step.strategy(DecisionId(cfg.entries[i], st), votes) == Agreed(value, metadata)
    requires cfg.entries[i].step.fallback == Some(f)
    ensures var e, id := cfg.entries[i], DecisionId(cfg.entries[i], st) + 1;
      && (Emit(StepStarted(id, f.tool.name, Some(e.step.id), false)) in l <==> ReportsBelow(metadata, f.field, f.below))
      && (ReportsBelow(metadata, f.field, f.below) ==> IsThreadOf(Project(l, OfStep(id)), cfg, id, FallbackJob(e, f, st)))
  {
    StartsWithin(cfg, i, st);
    hide Run, Starts, NextOf, VotesOf, IsThreadOf, Owned, DistinctGroups, ReportsBelow;
    var e, id := cfg.entries[i], DecisionId(cfg.entries[i], st) + 1;
    FallbackJobIff(cfg, i, st, votes, value, metadata, f);
    if ReportsBelow(metadata, f.field, f.below) {
      FallbackHasJob(cfg, i, st, f);
      JobInTrace(cfg, i, st, l, id, FallbackJob(e, f, st));
      ThreadStarts(cfg, l, id, FallbackJob(e, f, st));
    } else if Emit(StepStarted(id, f.tool.name, Some(e.step.id), false)) in l {
      var j, sj := TaggedOwner(cfg, l, Emit(StepStarted(id, f.tool.name, Some(e.step.id), false)), e.step.id);
      SameTagSameEntry(cfg, i, st, j, sj, id);
    }
  }

  lemma FallbackHasJob(cfg: Config, i: nat, st: Progress, f: Fallback)
    requires Starts(cfg, i, st) && cfg.entries[i].step.Consensus? && cfg.entries[i].step.fallback == Some(f)
    requires NextOf(cfg, i, st) == DecisionId(cfg.entries[i], st) + 2
    ensures HasJob(cfg, DecisionId(cfg.entries[i], st) + 1, i, st, FallbackJob(cfg.entries[i], f, st))
  {
    hide RunEntry;
  }

  lemma ThreadStarts(cfg: Config, l: seq<Action>, id: nat, job: Job)
    requires IsThreadOf(Project(l, OfStep(id)), cfg, id, job)
    ensures Emit(StepStarted(id, job.tool.name, job.group, false)) in l
  {
    hide ToolRun;
    var sink :| Project(l, OfStep(id)) == ToolRun(cfg.policy, cfg.world, job.tool, job.agent, id, job.group, job.bindings, sink).actions;
    ThreadOpens(cfg.policy, cfg.world, job, id, sink);
    ProjectElements(l, OfStep(id));
    assert Project(l, OfStep(id))[0] in Project(l, OfStep(id));
  }

  /** Two entries with one tag are one, so a step just past this entry cannot carry its tag. */
  lemma SameTagSameEntry(cfg: Config, i: nat, st: Progress, j: nat, sj: Progress, id: nat)
    requires Starts(cfg, i, st) && !cfg.entries[i].step.Single? && DistinctGroups(cfg.entries)
    requires Owned(cfg, id, j, sj) && EntryTag(cfg.entries[j]) == EntryTag(cfg.entries[i])
    ensures i == j && sj == st && st.next <= id < NextOf(cfg, i, st)
  {
    hide NextOf, Arrives;
    assert i == j;
    ArrivesOnce(cfg, i, st, sj);
  }
}
