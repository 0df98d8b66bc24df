/** The workflow builder: what its methods append, the rules it keeps, the checks before a run, and the run. */
module Workflows {
  import opened Wrappers
  import opened Values
  import opened Runtime
  import opened Merges
  import opened Blocks
  import opened Measures
  import opened Plans
  import opened Checkpoints
  import opened Schedulers
  import Journals
  import MetricsModel

  datatype BuildError = TooFewTools | ForeignResults | FallbackIncomplete

  datatype Violation =
    | StoreAndRunIdDiffer
    | NoApprovalCallback
    | AgentRequired(position: nat)
    | TooManyTools(position: nat)

  /** The name every consensus built here gets. */
  const CONSENSUS: string := "consensus"

  /** An earlier parallel block with this id and these tools. */
  ghost predicate HasParallel(entries: seq<Entry>, i: nat, id: GroupId, tools: seq<Tool>) {
    exists j :: 0 <= j < i && j < |entries| && entries[j].step == Parallel(id, tools)
  }

  ghost predicate EntryBuilt(entries: seq<Entry>, i: nat)
    requires i < |entries|
  {
    var step := entries[i].step;
    && (step.Parallel? ==> |step.tools| >= 2 && entries[i].asName.None?)
    && (step.Consensus? && step.source.None? ==> |step.tools| >= 2)
    && (step.Consensus? && step.source.Some? ==> HasParallel(entries, i, step.source.value, step.tools))
  }

  /** What the builder guarantees of the list it has built. */
  ghost predicate WellBuilt(entries: seq<Entry>) {
    && (forall i | 0 <= i < |entries| :: EntryBuilt(entries, i))
    && (forall i, j | 0 <= i < j < |entries| && !entries[i].step.Single? && !entries[j].step.Single? ::
          entries[i].step.id != entries[j].step.id)
  }

  lemma EntryStaysBuilt(entries: seq<Entry>, e: Entry, i: nat)
    requires i < |entries| && EntryBuilt(entries, i)
    ensures EntryBuilt(entries + [e], i)
  {
    var all := entries + [e];
    var step := entries[i].step;
    assert all[i] == entries[i];
    if step.Consensus? && step.source.Some? {
      var j :| 0 <= j < i && j < |entries| && entries[j].step == Parallel(step.source.value, step.tools);
      assert all[j].step == Parallel(step.source.value, step.tools);
    }
  }

  lemma AppendBuilt(entries: seq<Entry>, e: Entry)
    requires WellBuilt(entries) && EntryBuilt(entries + [e], |entries|)
    requires !e.step.Single? ==> forall i | 0 <= i < |entries| && !entries[i].step.Single? :: entries[i].step.id != e.step.id
    ensures WellBuilt(entries + [e])
  {
    hide EntryBuilt;
    forall i | 0 <= i < |entries| + 1 ensures EntryBuilt(entries + [e], i) {
      if i < |entries| { EntryStaysBuilt(entries, e, i); }
    }
  }

  /** The handle parallel() returns: the workflow and the block it names. */
  datatype ParallelResults = ParallelResults(workflow: Workflow, id: GroupId, tools: seq<Tool>)

  /** The entry has an agent where the policy demands one, and a group is no wider than the policy allows. */
  predicate EntryAllowed(policy: Policy, e: Entry) {
    && (policy.requireAgent ==> e.agent.Some?)
    && (policy.maxParallel.Some? && !e.step.Single? ==> |e.step.tools| <= policy.maxParallel.value)
  }

  /** The checks before a run. */
  predicate Admissible(entries: seq<Entry>, policy: Policy, hasCallback: bool, hasStore: bool, hasRunId: bool) {
    && hasStore == hasRunId
    && (policy.approvalFor != {} ==> hasCallback)
    && forall i | 0 <= i < |entries| :: EntryAllowed(policy, entries[i])
  }

  class Workflow {
    const policy: Policy
    const bindings: Namespace
    var steps: seq<Entry>
    var nextGroup: GroupId
    var journal: Option<JournalLog>
    var metrics: Option<Metrics>

    constructor (policy: Policy)
      ensures Valid() && steps == [] && nextGroup == 0 && this.policy == policy && bindings.values == map[] && fresh(bindings)
    {
      this.policy := policy;
      bindings := new Namespace();
      steps, nextGroup, journal, metrics := [], 0, None, None;
    }

    ghost predicate Valid()
      reads this
    {
      && WellBuilt(steps)
      && forall i | 0 <= i < |steps| && !steps[i].step.Single? :: steps[i].step.id < nextGroup
    }

    method Step(tool: Tool, agent: Option<Agent>, asName: Option<string>)
      requires Valid()
      modifies this`steps
      ensures Valid() && steps == old(steps) + [Entry(Single(tool), agent, asName)]
    {
      AppendBuilt(steps, Entry(Single(tool), agent, asName));
      steps := steps + [Entry(Single(tool), agent, asName)];
    }

    method AddParallel(tools: seq<Tool>, agent: Option<Agent>) returns (r: Result<ParallelResults, BuildError>)
      requires Valid()
      modifies this`steps, this`nextGroup
      ensures Valid()
      ensures r.Success? <==> |tools| >= 2
      ensures r.Success? ==>
        && r.value == ParallelResults(this, old(nextGroup), tools)
        && steps == old(steps) + [Entry(Parallel(old(nextGroup), tools), agent, None)] && nextGroup == old(nextGroup) + 1
      ensures r.Failure? ==> r.error == TooFewTools && steps == old(steps)
    {
      if |tools| < 2 { return Failure(TooFewTools); }
      var e := Entry(Parallel(nextGroup, tools), agent, None);
      AppendBuilt(steps, e);
      r := Success(ParallelResults(this, nextGroup, tools));
      steps, nextGroup := steps + [e], nextGroup + 1;
    }

    /** A consensus that runs its own voters. */
    method AddConsensus(tools: seq<Tool>, strategy: Strategy, agent: Option<Agent>, fallback: Option<Tool>,
                        below: Option<real>, field: string, asName: Option<string>) returns (r: Option<BuildError>)
      requires Valid()
      modifies this`steps, this`nextGroup
      ensures Valid()
      ensures r == if |tools| < 2 then Some(TooFewTools) else if fallback.None? != below.None? then Some(FallbackIncomplete) else None
      ensures r.Some? ==> steps == old(steps)
      ensures r.None? ==> nextGroup == old(nextGroup) + 1
      ensures r.None? ==> steps == old(steps) + [Entry(
        Consensus(old(nextGroup), tools, CONSENSUS, strategy, None,
                  if fallback.None? then None else Some(Fallback(fallback.value, below.value, field))),
        agent, asName)]
    {
      if |tools| < 2 { return Some(TooFewTools); }
      if fallback.None? != below.None? { return Some(FallbackIncomplete); }
      var gate := if fallback.None? then None else Some(Fallback(fallback.value, below.value, field));
      var e := Entry(Consensus(nextGroup, tools, CONSENSUS, strategy, None, gate), agent, asName);
      AppendBuilt(steps, e);
      steps, nextGroup := steps + [e], nextGroup + 1;
      return None;
    }

    /** A consensus over the outputs of a parallel block of this workflow. */
    method AddConsensusOver(results: ParallelResults, strategy: Strategy, agent: Option<Agent>, fallback: Option<Tool>,
                            below: Option<real>, field: string, asName: Option<string>) returns (r: Option<BuildError>)
      requires Valid()
      requires results.workflow == this ==> HasParallel(steps, |steps|, results.id, results.tools)
      modifies this`steps, this`nextGroup
      ensures Valid()
      ensures r == if results.workflow != this then Some(ForeignResults)
                   else if fallback.None? != below.None? then Some(FallbackIncomplete) else None
      ensures r.Some? ==> steps == old(steps)
      ensures r.None? ==> nextGroup == old(nextGroup) + 1
      ensures r.None? ==> steps == old(steps) + [Entry(
        Consensus(old(nextGroup), results.tools, CONSENSUS, strategy, Some(results.id),
                  if fallback.None? then None else Some(Fallback(fallback.value, below.value, field))),
        agent, asName)]
    {
      if results.workflow != this { return Some(ForeignResults); }
      if fallback.None? != below.None? { return Some(FallbackIncomplete); }
      var gate := if fallback.None? then None else Some(Fallback(fallback.value, below.value, field));
      var e := Entry(Consensus(nextGroup, results.tools, CONSENSUS, strategy, Some(results.id), gate), agent, asName);
      ghost var j :| 0 <= j < |steps| && steps[j].step == Parallel(results.id, results.tools);
      assert (steps + [e])[j].step == Parallel(results.id, results.tools);
      AppendBuilt(steps, e);
      steps, nextGroup := steps + [e], nextGroup + 1;
      return None;
    }

    /** _validate: the first violation in the order the checks are made. */
    method Validate(hasCallback: bool, hasStore: bool, hasRunId: bool) returns (r: Option<Violation>)
      ensures r.None? <==> Admissible(steps, policy, hasCallback, hasStore, hasRunId)
      ensures r == Some(StoreAndRunIdDiffer) <==> hasStore != hasRunId
      ensures r == Some(NoApprovalCallback) <==> hasStore == hasRunId && policy.approvalFor != {} && !hasCallback
      ensures r.Some? && r.value.AgentRequired? ==>
        var i := r.value.position;
        i < |steps| && policy.requireAgent && steps[i].agent.None? && forall j | 0 <= j < i :: EntryAllowed(policy, steps[j])
      ensures r.Some? && r.value.TooManyTools? ==>
        var i := r.value.position;
        && i < |steps| && !(policy.requireAgent && steps[i].agent.None?) && !steps[i].step.Single? && policy.maxParallel.Some?
        && |steps[i].step.tools| > policy.maxParallel.value && forall j | 0 <= j < i :: EntryAllowed(policy, steps[j])
    {
      if hasStore != hasRunId { return Some(StoreAndRunIdDiffer); }
      if policy.approvalFor != {} && !hasCallback { return Some(NoApprovalCallback); }
      var i := 0;
      while i < |steps|
        invariant 0 <= i <= |steps|
        invariant forall j | 0 <= j < i :: EntryAllowed(policy, steps[j])
      {
        if policy.requireAgent && steps[i].agent.None? { return Some(AgentRequired(i)); }
        if policy.maxParallel.Some? && !steps[i].step.Single? && |steps[i].step.tools| > policy.maxParallel.value {
          return Some(TooManyTools(i));
        }
        i := i + 1;
      }
      return None;
    }

    /** A new scheduler runs the steps; a run that raises leaves no journal. */
    method Schedule(world: World, store: StoreRef, id: string, ghost cfg: Config) returns (ending: RunEnding, ghost trace: seq<Action>)
      requires StoreValid(store) && bindings.values == map[]
      requires cfg == Config(steps, policy, world, Loaded(store, id), store != NoStore)
      modifies this`journal, this`metrics, bindings, StoreObjects(store)
      ensures StoreValid(store)
      ensures ending == Plans.Run(cfg).ending && bindings.values == Plans.Run(cfg).state.bindings
      ensures Realizes(trace, Plans.Run(cfg).state.blocks)
      ensures Loaded(store, id) == Recorded(store.OnDisk?, cfg.checkpoint, trace)
      ensures ending.Finished? ==> Reported(this, trace)
    {
      hide Realizes, Recorded, Measure, BusValid, Plans.Run, Tracks, StoreTracks, At, Reported;
      var scheduler := new Schedulers.Scheduler(policy, world, store, id);
      ending := scheduler.Run(steps, bindings, cfg);
      SchedulerEnds(scheduler, Plans.Run(cfg).state, bindings);
      trace := scheduler.bus.log;
      if ending.Finished? {
        journal, metrics := Some(scheduler.bus.journal), Some(scheduler.bus.metrics);
        BusReports(this, scheduler.bus);
      }
    }

    /**
     Validates, clears the bindings, runs the steps.  Whatever the schedule turns out to be, the run
     ends in the plan's state, and journal, metrics and checkpoint are those of the trace performed.
     */
    method Run(world: World, hasCallback: bool, store: StoreRef, runId: Option<string>)
      returns (r: Result<RunEnding, Violation>, ghost trace: seq<Action>)
      requires Valid() && StoreValid(store)
      modifies this`journal, this`metrics, bindings, StoreObjects(store)
      ensures StoreValid(store)
      ensures r.Success? <==> Admissible(steps, policy, hasCallback, store != NoStore, runId.Some?)
      ensures r.Failure? ==> bindings.values == old(bindings.values)
      ensures r.Success? ==>
        var id := if runId.Some? then runId.value else "";
        var cfg := Config(steps, policy, world, old(Loaded(store, id)), store != NoStore);
        && r.value == Plans.Run(cfg).ending
        && bindings.values == Plans.Run(cfg).state.bindings
        && Realizes(trace, Plans.Run(cfg).state.blocks)
        && Loaded(store, id) == Recorded(store.OnDisk?, cfg.checkpoint, trace)
      ensures r.Success? && r.value.Finished? ==> Reported(this, trace)
    {
      hide Realizes, Recorded, Reported, Admissible, Plans.Run, WellBuilt;
      trace := [];
      var violation := Validate(hasCallback, store != NoStore, runId.Some?);
      if violation.Some? { return Failure(violation.value), []; }
      bindings.values := map[];
      var id := if runId.Some? then runId.value else "";
      ghost var cfg := Config(steps, policy, world, Loaded(store, id), store != NoStore);
      var ending;
      ending, trace := Schedule(world, store, id, cfg);
      r := Success(ending);
    }
  }

  /** journal and metrics are those of the trace. */
  ghost predicate Reported(w: Workflow, trace: seq<Action>)
    reads w, if w.journal.Some? then {w.journal.value} else {}, if w.metrics.Some? then {w.metrics.value} else {}
  {
    && w.journal.Some? && w.metrics.Some?
    && w.journal.value.State() == Journals.JournalOf(trace)
    && MetricsModel.Counts(w.metrics.value.State(), trace)
  }

  lemma BusReports(w: Workflow, bus: EventBus)
    requires BusValid(bus) && w.journal == Some(bus.journal) && w.metrics == Some(bus.metrics)
    ensures Reported(w, bus.log)
  {
  }

  lemma SchedulerEnds(s: Scheduler, st: Progress, bindings: Namespace)
    requires Tracks(s) && StoreTracks(s) && At(s, st, st.next, bindings)
    ensures BusValid(s.bus) && StoreValid(s.store)
    ensures Loaded(s.store, s.runId) == Recorded(s.store.OnDisk?, s.initial, s.bus.log)
    ensures bindings.values == st.bindings && Realizes(s.bus.log, st.blocks)
  {
  }
}
