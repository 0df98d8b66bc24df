/**
 How a run ends: the status it reports, why it stopped, and how far over budget it can be.
 */
module Outcomes {
  import opened Wrappers
  import opened Values
  import opened Runtime
  import opened Merges
  import opened Blocks
  import opened Measures
  import opened Plans
  import opened StepLaws
  import opened RunLaws
  import StepRecords
  import Checkpoints
  import MetricsModel

  /** The state in which the loop arrives at entry i, if it gets that far. */
  function StateAt(cfg: Config, i: nat): Option<Progress>
    requires i <= |cfg.entries|
  {
    if i == 0 then Some(START)
    else match StateAt(cfg, i - 1)
      case None => None
      case Some(st) => match TurnAt(cfg, i - 1, st)
        case GoesOn(st') => Some(st')
        case Stops(_) => None
  }

  ghost predicate Arrives(cfg: Config, i: nat, st: Progress) {
    i <= |cfg.entries| && StateAt(cfg, i) == Some(st)
  }

  lemma ArrivesNext(cfg: Config, i: nat, st: Progress)
    requires Arrives(cfg, i, st) && i < |cfg.entries| && TurnAt(cfg, i, st).GoesOn?
    ensures Arrives(cfg, i + 1, TurnAt(cfg, i, st).state)
  {
    hide TurnAt;
  }

  lemma ArrivesBefore(cfg: Config, i: nat, st: Progress) returns (before: Progress)
    requires Arrives(cfg, i, st) && i > 0
    ensures Arrives(cfg, i - 1, before) && TurnAt(cfg, i - 1, before) == GoesOn(st)
  {
    hide TurnAt;
    before := StateAt(cfg, i - 1).value;
  }

  lemma ArrivesStart(cfg: Config)
    ensures Arrives(cfg, 0, START)
  {
  }

  /** What is true of the start and kept by every turn is true wherever the loop arrives. */
  lemma {:induction false} ArrivesOrderly(cfg: Config, i: nat, st: Progress)
    requires Arrives(cfg, i, st)
    ensures Orderly(st) && |st.outputs| == i
    decreases i
  {
    hide Orderly, TurnAt, Arrives;
    if i == 0 {
      StartOrderly();
      ArrivesAtStart(cfg, st);
    } else {
      var before := ArrivesBefore(cfg, i, st);
      ArrivesOrderly(cfg, i - 1, before);
      ArrivesWithin(cfg, i, st);
      TurnOrderly(cfg, i - 1, before);
      TurnOutputs(cfg, i - 1, before);
    }
  }

  lemma ArrivesAtStart(cfg: Config, st: Progress)
    requires Arrives(cfg, 0, st)
    ensures st == START
  {
  }

  lemma ArrivesWithin(cfg: Config, i: nat, st: Progress)
    requires Arrives(cfg, i, st)
    ensures i <= |cfg.entries|
  {
  }

  lemma TurnOutputs(cfg: Config, i: nat, st: Progress)
    requires i < |cfg.entries|
    ensures TurnAt(cfg, i, st).GoesOn? ==> |TurnAt(cfg, i, st).state.outputs| == |st.outputs| + 1
    ensures TurnAt(cfg, i, st).Stops? && TurnAt(cfg, i, st).result.ending.Finished? ==>
      TurnAt(cfg, i, st).result.state.outputs == st.outputs
  {
    hide RunEntry, Storable;
  }

  /** Where the run ends: past the last entry, or at an entry whose turn stops it. */
  ghost predicate EndsAt(cfg: Config, i: nat, st: Progress) {
    && Arrives(cfg, i, st)
    && (if i == |cfg.entries| then Run(cfg) == Finish(st, true)
        else TurnAt(cfg, i, st).Stops? && Run(cfg) == TurnAt(cfg, i, st).result)
  }

  lemma {:induction false} EndIsReached(cfg: Config, i: nat, st: Progress) returns (k: nat, last: Progress)
    requires Arrives(cfg, i, st) && Run(cfg) == Remaining(cfg, i, st)
    ensures i <= k && EndsAt(cfg, k, last)
    decreases |cfg.entries| - i
  {
    hide TurnAt, Finish, Run, Remaining;
    if i == |cfg.entries| {
      RemainingEnd(cfg, st);
      k, last := i, st;
    } else {
      RemainingTurn(cfg, i, st);
      if TurnAt(cfg, i, st).GoesOn? {
        ArrivesNext(cfg, i, st);
        k, last := EndIsReached(cfg, i + 1, TurnAt(cfg, i, st).state);
      } else {
        k, last := i, st;
      }
    }
  }

  lemma RunEnds(cfg: Config) returns (k: nat, last: Progress)
    ensures EndsAt(cfg, k, last)
  {
    hide EndsAt;
    ArrivesStart(cfg);
    k, last := EndIsReached(cfg, 0, START);
  }

  /** The loop arrives only once at each entry, and no further than where the run ends. */
  lemma {:induction false} ArrivesUpTo(cfg: Config, i: nat, st: Progress, k: nat, last: Progress)
    requires Arrives(cfg, i, st) && EndsAt(cfg, k, last)
    ensures i <= k
    decreases i
  {
    hide TurnAt;
    if i > k {
      var before := ArrivesBefore(cfg, i, st);
      if i - 1 > k { ArrivesUpTo(cfg, i - 1, before, k, last); }
    }
  }

  // ---------------------------------------------------------------- the reported status

  /** The run reached an entry out of time or over budget. */
  ghost predicate Cut(cfg: Config, i: nat, st: Progress) {
    && Arrives(cfg, i, st) && i < |cfg.entries|
    && ((cfg.policy.maxRuntime.Some? && cfg.world.late(i)) || (cfg.policy.maxCost.Some? && st.cost > cfg.policy.maxCost.value))
  }

  /** The entry is sequential and the checkpoint has a record at its position. */
  predicate HasRecord(cfg: Config, i: nat)
    requires i < |cfg.entries|
  {
    cfg.entries[i].step.Single? && i in cfg.checkpoint
  }

  /** A checkpoint of another workflow, or an output the store refuses. */
  ghost predicate CheckpointFails(cfg: Config, i: nat, st: Progress) {
    && Arrives(cfg, i, st) && i < |cfg.entries| && !Cut(cfg, i, st)
    && var e := cfg.entries[i];
       if HasRecord(cfg, i) then cfg.checkpoint[i].tool != e.step.tool.name
       else
         e.step.Single? && cfg.storing
         && var last := StepRecords.EndOf(cfg.policy, cfg.world, e.step.tool, e.agent, st.next, st.bindings);
            last.Returned? && Checkpoints.HoldsOpaque(last.value)
  }

  /** An output the store refuses is one with something in it that json cannot write. */
  lemma RefusedIff(cfg: Config, i: nat, st: Progress)
    requires i < |cfg.entries| && cfg.entries[i].step.Single?
    ensures var e := cfg.entries[i];
      var run := RunEntry(cfg, e, st.next, st.bindings, st.cache);
      var last := StepRecords.EndOf(cfg.policy, cfg.world, e.step.tool, e.agent, st.next, st.bindings);
      && (run.ok <==> run.bound.Some?)
      && (run.ok && !Storable(run.bound.value) <==> last.Returned? && Checkpoints.HoldsOpaque(last.value))
  {
    hide Checkpoints.HoldsOpaque, StepRecords.EndOf;
    var e := cfg.entries[i];
    StepRecords.OutputIs(cfg.policy, cfg.world, e.step.tool, e.agent, st.next, None, st.bindings, true);
    var last := StepRecords.EndOf(cfg.policy, cfg.world, e.step.tool, e.agent, st.next, st.bindings);
    if last.Returned? { Checkpoints.StorableIff(last.value); }
  }

  ghost predicate Failing(st: Progress) {
    Measure(Sequential(st.blocks), Failed) != 0.0
  }

  lemma FinishKeepsFailures(st: Progress, success: bool)
    ensures Failing(Finish(st, success).state) <==> Failing(st)
  {
    var a := Emit(WorkflowFinished(success));
    SequentialSnoc(st.blocks, Solo([a]));
    MeasureSnoc(Sequential(st.blocks), a, Failed);
  }

  lemma OrderlyClean(st: Progress)
    requires Orderly(st)
    ensures !Failing(st)
  {
  }

  lemma AdvanceFailing(cfg: Config, st: Progress, e: Entry)
    requires Orderly(st)
    ensures var run := RunEntry(cfg, e, st.next, st.bindings, st.cache); Failing(Advance(st, e, run)) <==> !run.ok
  {
    hide RunEntry, Advance, AllSeparate;
    AdvanceMoves(cfg, st, e);
  }

  /** Why a turn stops: a cut, a failed step, or a checkpoint error; never two of them. */
  lemma StopReasons(cfg: Config, i: nat, st: Progress)
    requires Arrives(cfg, i, st) && i < |cfg.entries| && TurnAt(cfg, i, st).Stops?
    ensures var r := TurnAt(cfg, i, st).result;
      && (r.ending == Aborted <==> CheckpointFails(cfg, i, st))
      && (r.ending.Finished? ==> !r.ending.success)
      && (Failing(r.state) <==> r.ending.Finished? && !Cut(cfg, i, st))
  {
    hide RunEntry, Storable, Orderly, Failing, Arrives, Advance, Checkpoints.HoldsOpaque, StepRecords.EndOf;
    ArrivesOrderly(cfg, i, st);
    if cfg.entries[i].step.Single? { RefusedIff(cfg, i, st); }
    OrderlyClean(st);
    var e := cfg.entries[i];
    var run := RunEntry(cfg, e, st.next, st.bindings, st.cache);
    AdvanceFailing(cfg, st, e);
    FinishKeepsFailures(st, false);
    FinishKeepsFailures(Advance(st, e, run), false);
  }

  ghost predicate SomeCut(cfg: Config) { exists i, st :: Cut(cfg, i, st) }

  ghost predicate SomeCheckpointFails(cfg: Config) { exists i, st :: CheckpointFails(cfg, i, st) }

  /** The turn at a cut or a checkpoint error stops the run, so it is where the run ends. */
  lemma StopsHere(cfg: Config, i: nat, st: Progress, k: nat, last: Progress)
    requires (Cut(cfg, i, st) || CheckpointFails(cfg, i, st)) && EndsAt(cfg, k, last)
    ensures i == k && st == last
  {
    hide RunEntry, Finish, Storable, Replay, Advance, Checkpoints.HoldsOpaque, StepRecords.EndOf;
    ArrivesUpTo(cfg, i, st, k, last);
    if cfg.entries[i].step.Single? { RefusedIff(cfg, i, st); }
    assert TurnAt(cfg, i, st).Stops?;
    if i < k { ArrivesPast(cfg, i, st, k, last); }
  }

  lemma {:induction false} ArrivesPast(cfg: Config, i: nat, st: Progress, k: nat, later: Progress)
    requires Arrives(cfg, i, st) && Arrives(cfg, k, later) && i < k
    ensures TurnAt(cfg, i, st).GoesOn?
    decreases k
  {
    hide TurnAt;
    var before := ArrivesBefore(cfg, k, later);
    if i < k - 1 { ArrivesPast(cfg, i, st, k - 1, before); }
  }

  /**
   The status.  A run reports success exactly when every entry was run or replayed, which is exactly
   when nothing cut it and no step failed; CheckpointError escapes exactly when the checkpoint is of
   another workflow or refuses an output.
   */
  lemma StatusIs(cfg: Config)
    ensures var r := Run(cfg);
      && (r.ending == Aborted <==> SomeCheckpointFails(cfg))
      && (r.ending.Finished? ==>
           && (r.ending.success <==> |r.state.outputs| == |cfg.entries|)
           && (r.ending.success <==> !SomeCut(cfg) && !Failing(r.state)))
  {
    hide Run, EndsAt, Cut, CheckpointFails, Failing, TurnAt, Orderly;
    var k, last := RunEnds(cfg);
    StatusOf(cfg, k, last);
    forall i, st | Cut(cfg, i, st) ensures Cut(cfg, k, last) { StopsHere(cfg, i, st, k, last); }
    forall i, st | CheckpointFails(cfg, i, st) ensures CheckpointFails(cfg, k, last) { StopsHere(cfg, i, st, k, last); }
  }

  lemma StatusOf(cfg: Config, k: nat, last: Progress)
    requires EndsAt(cfg, k, last)
    ensures var r := Run(cfg);
      && (r.ending == Aborted <==> CheckpointFails(cfg, k, last))
      && (r.ending.Finished? ==>
           && (r.ending.success <==> |r.state.outputs| == |cfg.entries|)
           && (r.ending.success <==> !Cut(cfg, k, last) && !Failing(r.state)))
  {
    hide Run, TurnAt, Orderly, Failing, RunEntry, Storable, Checkpoints.HoldsOpaque, StepRecords.EndOf;
    ArrivesOrderly(cfg, k, last);
    OrderlyClean(last);
    if k == |cfg.entries| {
      FinishKeepsFailures(last, true);
      FinishEnding(last, true);
    } else {
      StopReasons(cfg, k, last);
      TurnOutputs(cfg, k, last);
    }
  }

  // ---------------------------------------------------------------- what was spent

  function EntryCost(cfg: Config, i: nat, st: Progress): real {
    if i >= |cfg.entries| then 0.0
    else Measure(Sequential(RunEntry(cfg, cfg.entries[i], st.next, st.bindings, st.cache).blocks), Cost)
  }

  /** Entry i was started: reached in time and within budget, and not replayed. */
  ghost predicate Starts(cfg: Config, i: nat, st: Progress) {
    Arrives(cfg, i, st) && i < |cfg.entries| && !Cut(cfg, i, st) && !HasRecord(cfg, i)
  }

  /** Of the entries before the n-th, entry i was the last to be started. */
  ghost predicate LastBefore(cfg: Config, n: nat, i: nat, st: Progress) {
    Starts(cfg, i, st) && i < n && forall j: nat, sj | Starts(cfg, j, sj) && j < n :: j <= i
  }

  ghost predicate NoneBefore(cfg: Config, n: nat) {
    forall j: nat, sj | Starts(cfg, j, sj) :: j >= n
  }

  /** `cost` is what had been spent when the last entry before the n-th was started, and that entry's own cost. */
  ghost predicate SpentBefore(cfg: Config, n: nat, cost: real) {
    (NoneBefore(cfg, n) && cost == 0.0)
    || exists i: nat, st :: LastBefore(cfg, n, i, st) && cost == st.cost + EntryCost(cfg, i, st)
  }

  lemma NotStarted(cfg: Config, i: nat, st: Progress, sj: Progress)
    requires Arrives(cfg, i, st) && !Starts(cfg, i, st)
    ensures !Starts(cfg, i, sj)
  {
  }

  lemma SpentSkips(cfg: Config, i: nat, st: Progress, cost: real)
    requires SpentBefore(cfg, i, cost) && Arrives(cfg, i, st) && !Starts(cfg, i, st)
    ensures SpentBefore(cfg, i + 1, cost)
  {
    hide EntryCost, Starts, Arrives;
    forall j: nat, sj | Starts(cfg, j, sj) ensures j != i {
      if j == i { NotStarted(cfg, i, st, sj); }
    }
    if NoneBefore(cfg, i) && cost == 0.0 {
      assert NoneBefore(cfg, i + 1);
    } else {
      var k: nat, sk :| LastBefore(cfg, i, k, sk) && cost == sk.cost + EntryCost(cfg, k, sk);
      StartsWithin(cfg, k, sk);
      assert LastBefore(cfg, i + 1, k, sk);
    }
  }

  lemma StartsWithin(cfg: Config, i: nat, st: Progress)
    requires Starts(cfg, i, st)
    ensures i < |cfg.entries|
  {
  }

  lemma SpentNext(cfg: Config, i: nat, st: Progress)
    requires Starts(cfg, i, st)
    ensures SpentBefore(cfg, i + 1, st.cost + EntryCost(cfg, i, st))
  {
    hide EntryCost, Arrives;
    assert LastBefore(cfg, i + 1, i, st);
  }

  /** One turn spends an entry's cost if it starts the entry, and nothing if it does not. */
  lemma TurnSpends(cfg: Config, i: nat, st: Progress)
    requires Arrives(cfg, i, st) && i < |cfg.entries|
    ensures var cost := if Starts(cfg, i, st) then st.cost + EntryCost(cfg, i, st) else st.cost;
      match TurnAt(cfg, i, st)
      case GoesOn(st') => st'.cost == cost
      case Stops(r) => r.state.cost == cost
  {
    hide RunEntry, Storable, Arrives, Measure;
  }

  lemma {:induction false} ArrivesSpent(cfg: Config, i: nat, st: Progress)
    requires Arrives(cfg, i, st)
    ensures SpentBefore(cfg, i, st.cost)
    decreases i
  {
    hide TurnAt, Arrives, Starts, SpentBefore, EntryCost;
    if i == 0 {
      ArrivesAtStart(cfg, st);
      NothingSpent(cfg);
    } else {
      var before := ArrivesBefore(cfg, i, st);
      ArrivesSpent(cfg, i - 1, before);
      ArrivesWithin(cfg, i, st);
      TurnSpends(cfg, i - 1, before);
      if Starts(cfg, i - 1, before) { SpentNext(cfg, i - 1, before); } else { SpentSkips(cfg, i - 1, before, before.cost); }
    }
  }

  lemma NothingSpent(cfg: Config)
    ensures SpentBefore(cfg, 0, 0.0)
  {
    assert NoneBefore(cfg, 0);
  }

  /** The last entry the run started. */
  ghost predicate LastStarted(cfg: Config, i: nat, st: Progress) {
    Starts(cfg, i, st) && forall j: nat, sj | Starts(cfg, j, sj) :: j <= i
  }

  ghost predicate NoneStarted(cfg: Config) {
    forall j: nat, sj :: !Starts(cfg, j, sj)
  }

  /** Started within the budget, with nothing spent after it. */
  ghost predicate OverspentBy(cfg: Config, budget: real, i: nat, st: Progress, cost: real) {
    LastStarted(cfg, i, st) && st.cost <= budget && cost == st.cost + EntryCost(cfg, i, st)
  }

  /**
   A run spends nothing, or what it had spent, within its budget, when it started its last entry, and
   that entry's cost: it never overspends by more than the last entry it started cost.
   */
  lemma OverspendIsOneEntry(cfg: Config, budget: real)
    requires cfg.policy.maxCost == Some(budget)
    ensures (NoneStarted(cfg) && Run(cfg).state.cost == 0.0)
      || exists i: nat, st :: OverspentBy(cfg, budget, i, st, Run(cfg).state.cost)
  {
    hide Run, TurnAt, Starts, EntryCost, Arrives, SpentBefore, LastBefore;
    var k, last := RunEnds(cfg);
    ArrivesWithin(cfg, k, last);
    ArrivesSpent(cfg, k, last);
    if k < |cfg.entries| {
      TurnSpends(cfg, k, last);
      if Starts(cfg, k, last) { SpentNext(cfg, k, last); } else { SpentSkips(cfg, k, last, last.cost); }
    } else {
      FinishCost(last);
      StartsInside(cfg, k, last);
      SpentSkips(cfg, k, last, last.cost);
    }
    SpentInAll(cfg, budget, k, last, Run(cfg).state.cost);
  }

  lemma FinishCost(st: Progress)
    ensures Finish(st, true).state.cost == st.cost
  {
  }

  lemma StartsInside(cfg: Config, i: nat, st: Progress)
    requires i >= |cfg.entries|
    ensures !Starts(cfg, i, st)
  {
  }

  lemma SpentInAll(cfg: Config, budget: real, k: nat, last: Progress, cost: real)
    requires cfg.policy.maxCost == Some(budget) && EndsAt(cfg, k, last) && SpentBefore(cfg, k + 1, cost)
    ensures (NoneStarted(cfg) && cost == 0.0) || exists i: nat, st :: OverspentBy(cfg, budget, i, st, cost)
  {
    hide EntryCost;
    forall j: nat, sj | Starts(cfg, j, sj) ensures j <= k { ArrivesUpTo(cfg, j, sj, k, last); }
    if !(NoneBefore(cfg, k + 1) && cost == 0.0) {
      var i: nat, st :| LastBefore(cfg, k + 1, i, st) && cost == st.cost + EntryCost(cfg, i, st);
      assert OverspentBy(cfg, budget, i, st, cost);
    }
  }

  // ---------------------------------------------------------------- on the trace

  /** The status Metrics reports at the end is the run's, whatever the schedule. */
  lemma TraceStatus(cfg: Config, l: seq<Action>)
    requires Linearizes(l, Run(cfg).state.blocks)
    ensures Run(cfg).ending.Finished? ==> MetricsModel.OutcomeOf(l) == Some(Run(cfg).ending.success)
    ensures Measure(l, Failed) == 0.0 <==> !Failing(Run(cfg).state)
  {
    hide Run;
    LinearizationMeasure(l, Run(cfg).state.blocks, Failed);
    if Run(cfg).ending.Finished? {
      RunFinishes(cfg);
      var before, during := LinearizesEnds(l, Run(cfg).state.blocks);
      MetricsModel.OutcomeSnoc(before, Emit(WorkflowFinished(Run(cfg).ending.success)));
    }
  }

  lemma RunFinishes(cfg: Config)
    requires Run(cfg).ending.Finished?
    ensures var blocks := Run(cfg).state.blocks;
      blocks != [] && Last(blocks) == Solo([Emit(WorkflowFinished(Run(cfg).ending.success))])
  {
    hide Run, RunEntry, Storable, Replay, Advance;
    var k, last := RunEnds(cfg);
  }
}
