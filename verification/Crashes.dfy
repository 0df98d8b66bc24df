/**
 What crashed attempts leave in the checkpoint store, over any history of them.
 */
module Crashes {
  import opened Wrappers
  import opened Values
  import opened Runtime
  import opened Merges
  import opened Blocks
  import opened Measures
  import opened Workers
  import opened WorkerLaws
  import opened Plans
  import opened Checkpoints
  import opened GroupLaws
  import opened EntryLaws
  import opened StepLaws
  import opened RunLaws
  import opened Outcomes
  import opened Resume

  /** The records a trace writes, in order. */
  function Records(l: seq<Action>): seq<Action> {
    Project(l, OfStore)
  }

  lemma {:induction false} RecordedProjects(onDisk: bool, cp: Checkpoint, l: seq<Action>)
    ensures Recorded(onDisk, cp, l) == Recorded(onDisk, cp, Records(l))
    decreases |l|
  {
    hide Kept;
    if l != [] {
      RecordedProjects(onDisk, cp, Init(l));
      assert Init(l) + [Last(l)] == l;
      RecordedSnoc(onDisk, cp, Init(l), Last(l));
      ProjectSnoc(Init(l), Last(l), OfStore);
      if Last(l).Record? {
        RecordedSnoc(onDisk, cp, Records(Init(l)), Last(l));
      } else {
        assert Records(Init(l)) + [] == Records(Init(l));
      }
    }
  }

  /** The recorded positions are a prefix of the workflow's sequential positions, and no others. */
  ghost predicate PrefixClosed(entries: seq<Entry>, cp: Checkpoint) {
    && (forall p | p in cp :: p < |entries| && entries[p].step.Single?)
    && (forall p, q: nat | p in cp && q < p && entries[q].step.Single? :: q in cp)
  }

  ghost predicate Sound(r: Config, cp: Checkpoint) {
    Faithful(r, cp) && PrefixClosed(r.entries, cp)
  }

  /** The store gives back every output the run records as it was: JSON, and no tuples. */
  ghost predicate Survives(r: Config, onDisk: bool) {
    onDisk ==> forall p, rt, saved | RecordsAt(r, p, rt, saved) :: TupleFree(saved.output)
  }

  ghost predicate UpTo(entries: seq<Entry>, cp: Checkpoint, i: nat) {
    forall q: nat | q < i && q < |entries| && entries[q].step.Single? :: q in cp
  }

  // ---------------------------------------------------------------- one turn

  lemma QuietRecords(l: seq<Action>)
    requires NoRecords(l)
    ensures Records(l) == []
  {
    ProjectNone(l, OfStore);
  }

  lemma SequentialQuiet(blocks: seq<Block>)
    requires AllQuiet(blocks)
    ensures NoRecords(Sequential(blocks))
  {
    SequentialLinearizes(blocks);
    QuietRun(Sequential(blocks), blocks);
  }

  lemma AppendRecords(blocks: seq<Block>, more: seq<Block>)
    ensures Records(Sequential(blocks + more)) == Records(Sequential(blocks)) + Records(Sequential(more))
  {
    SequentialConcat(blocks, more);
    ProjectConcat(Sequential(blocks), Sequential(more), OfStore);
  }

  lemma AppendQuiet(blocks: seq<Block>, more: seq<Block>)
    requires AllQuiet(more)
    ensures Records(Sequential(blocks + more)) == Records(Sequential(blocks))
  {
    hide AllQuiet, Records;
    AppendRecords(blocks, more);
    SequentialQuiet(more);
    QuietRecords(Sequential(more));
    assert Records(Sequential(blocks)) + [] == Records(Sequential(blocks));
  }

  lemma QuietEvents(l: seq<Action>)
    requires NoRecords(l)
    ensures AllQuiet([Solo(l)])
  {
  }

  lemma FinishRecords(st: Progress, success: bool)
    ensures Records(Sequential(Finish(st, success).state.blocks)) == Records(Sequential(st.blocks))
  {
    hide Records;
    QuietEvents([Emit(WorkflowFinished(success))]);
    AppendQuiet(st.blocks, [Solo([Emit(WorkflowFinished(success))])]);
  }

  lemma ReplayRecords(st: Progress, e: Entry, saved: Saved)
    ensures Records(Sequential(Replay(st, e, saved).blocks)) == Records(Sequential(st.blocks))
  {
    hide Records;
    QuietEvents(ReplayActions(st.next, saved));
    AppendQuiet(st.blocks, [Solo(ReplayActions(st.next, saved))]);
  }

  lemma AdvanceRecords(cfg: Config, st: Progress, e: Entry)
    ensures var run := RunEntry(cfg, e, st.next, st.bindings, st.cache);
      Records(Sequential(Advance(st, e, run).blocks)) == Records(Sequential(st.blocks))
  {
    hide RunEntry, Records, AllQuiet;
    EntryQuiet(cfg, e, st.next, st.bindings, st.cache);
    AppendQuiet(st.blocks, RunEntry(cfg, e, st.next, st.bindings, st.cache).blocks);
  }

  lemma RecordRecords(blocks: seq<Block>, a: Action)
    requires a.Record?
    ensures Records(Sequential(blocks + [Solo([a])])) == Records(Sequential(blocks)) + [a]
  {
    SequentialSnoc(blocks, Solo([a]));
    ProjectSnoc(Sequential(blocks), a, OfStore);
  }

  /** What a turn records: the output of the sequential step it ran, and nothing else. */
  function TurnRecords(cfg: Config, i: nat, st: Progress): seq<Action>
    requires i < |cfg.entries|
  {
    var e := cfg.entries[i];
    var run := RunEntry(cfg, e, st.next, st.bindings, st.cache);
    if TurnAt(cfg, i, st).GoesOn? && !Replays(cfg, i) && e.step.Single? && cfg.storing && run.bound.Some?
    then [Record(i, e.step.tool.name, run.bound.value)] else []
  }

  lemma TurnRecorded(cfg: Config, i: nat, st: Progress)
    requires i < |cfg.entries|
    ensures var before := Records(Sequential(st.blocks));
      match TurnAt(cfg, i, st)
      case GoesOn(st') => Records(Sequential(st'.blocks)) == before + TurnRecords(cfg, i, st)
      case Stops(r) => Records(Sequential(r.state.blocks)) == before
  {
    hide RunEntry, Records, Storable, Advance, Replay, Finish;
    var e := cfg.entries[i];
    var run := RunEntry(cfg, e, st.next, st.bindings, st.cache);
    var before := Records(Sequential(st.blocks));
    assert before + [] == before;
    FinishRecords(st, false);
    if Replays(cfg, i) { ReplayRecords(st, e, cfg.checkpoint[i]); }
    var st1 := Advance(st, e, run);
    AdvanceRecords(cfg, st, e);
    FinishRecords(st1, false);
    if e.step.Single? && run.bound.Some? { RecordRecords(st1.blocks, Record(i, e.step.tool.name, run.bound.value)); }
  }

  // ---------------------------------------------------------------- one attempt

  /** Whatever prefix of the records was written, the checkpoint is sound. */
  ghost predicate AllSound(r: Config, onDisk: bool, cp: Checkpoint, recs: seq<Action>) {
    forall n: nat | n <= |recs| :: Sound(r, Recorded(onDisk, cp, recs[..n]))
  }

  lemma SoundSnoc(r: Config, onDisk: bool, cp: Checkpoint, recs: seq<Action>, a: Action)
    requires AllSound(r, onDisk, cp, recs) && Sound(r, Recorded(onDisk, cp, recs + [a]))
    ensures AllSound(r, onDisk, cp, recs + [a])
  {
    hide Sound;
    var more := recs + [a];
    forall n: nat | n <= |more| ensures Sound(r, Recorded(onDisk, cp, more[..n])) {
      if n <= |recs| { assert more[..n] == recs[..n]; } else { assert more[..n] == more; }
    }
  }

  /** The record of position i extends a sound checkpoint that has all positions before it. */
  lemma RecordSound(r: Config, cp: Checkpoint, i: nat, rt: Progress, saved: Saved)
    requires Sound(r, cp) && UpTo(r.entries, cp, i) && RecordsAt(r, i, rt, saved)
    ensures Sound(r, cp[i := saved]) && UpTo(r.entries, cp[i := saved], i + 1)
  {
    hide RecordsAt;
    var cp' := cp[i := saved];
    RecordsSingle(r, i, rt, saved);
    forall p | p in cp' ensures FaithfulAt(r, p, cp'[p]) {
      if p != i { assert FaithfulAt(r, p, cp[p]); }
    }
  }

  lemma RecordsSingle(r: Config, i: nat, rt: Progress, saved: Saved)
    requires RecordsAt(r, i, rt, saved)
    ensures i < |r.entries| && r.entries[i].step.Single?
  {
  }

  /** What an attempt records at an entry is what the reference run has there. */
  lemma TurnIsFaithful(r: Config, c: Config, i: nat, st: Progress, rt: Progress)
    requires Reference(r) && Kin(c, r) && Faithful(r, c.checkpoint) && Arrives(r, i, rt) && Same(st, rt)
    requires i < |c.entries| && TurnRecords(c, i, st) != []
    ensures var a := TurnRecords(c, i, st)[0];
      && TurnRecords(c, i, st) == [a] && a.Record? && a.position == i
      && RecordsAt(r, i, rt, Saved(a.tool, a.output)) && Storable(a.output)
  {
    hide RunEntry, Storable, Kin, Faithful, Arrives, Advance;
    KinEntriesAgree(c, r);
    GoesOnUncut(c, i, st);
    LockstepTurn(r, c, i, rt, st);
    KinOutside(c, r);
    KinEntry(c, r, c.entries[i], st.next, st.bindings, st.cache);
    SingleRun(c, c.entries[i], st.next, st.bindings, st.cache);
    StoredIsStorable(c, i, st);
  }

  lemma StoredIsStorable(c: Config, i: nat, st: Progress)
    requires i < |c.entries| && TurnRecords(c, i, st) != []
    ensures Storable(TurnRecords(c, i, st)[0].output)
  {
    hide RunEntry, Storable, Advance;
  }

  lemma KeptSurvives(r: Config, onDisk: bool, i: nat, rt: Progress, saved: Saved)
    requires Survives(r, onDisk) && RecordsAt(r, i, rt, saved) && Storable(saved.output)
    ensures Kept(onDisk, saved.output) == saved.output
  {
    hide RecordsAt, Storable;
    if onDisk { ReloadIsIdentity(saved.output); }
  }

  /** The records up to where an attempt arrives: sound at every prefix, and complete. */
  ghost predicate RecordsWell(r: Config, c: Config, onDisk: bool, i: nat, st: Progress) {
    var recs := Records(Sequential(st.blocks));
    && AllSound(r, onDisk, c.checkpoint, recs)
    && UpTo(r.entries, Recorded(onDisk, c.checkpoint, recs), i)
  }

  lemma NewRecordSound(r: Config, c: Config, onDisk: bool, i: nat, st: Progress, rt: Progress)
    requires Reference(r) && Survives(r, onDisk) && Kin(c, r) && Sound(r, c.checkpoint)
    requires Arrives(r, i, rt) && Same(st, rt) && i < |c.entries|
    requires RecordsWell(r, c, onDisk, i, st) && TurnRecords(c, i, st) != []
    ensures var recs := Records(Sequential(st.blocks)) + TurnRecords(c, i, st);
      AllSound(r, onDisk, c.checkpoint, recs) && UpTo(r.entries, Recorded(onDisk, c.checkpoint, recs), i + 1)
  {
    hide TurnRecords, Kin, Arrives, RecordsAt, Survives, UpTo, Kept, Records, Faithful, PrefixClosed, Storable;
    var recs := Records(Sequential(st.blocks));
    TurnIsFaithful(r, c, i, st, rt);
    var a := TurnRecords(c, i, st)[0];
    var cp := Recorded(onDisk, c.checkpoint, recs);
    assert recs[..|recs|] == recs;
    KeptSurvives(r, onDisk, i, rt, Saved(a.tool, a.output));
    RecordSound(r, cp, i, rt, Saved(a.tool, a.output));
    RecordedSnoc(onDisk, c.checkpoint, recs, a);
    SoundSnoc(r, onDisk, c.checkpoint, recs, a);
  }

  /** An entry that records nothing has nothing to record, or its record is already there. */
  lemma NoRecordNeeded(c: Config, onDisk: bool, i: nat, st: Progress, recs: seq<Action>)
    requires i < |c.entries| && c.storing && TurnAt(c, i, st).GoesOn? && TurnRecords(c, i, st) == []
    ensures c.entries[i].step.Single? ==> i in Recorded(onDisk, c.checkpoint, recs)
  {
    hide RunEntry, Storable, Advance, Kept;
    SingleOrNot(c, i, st);
    RecordedKeeps(onDisk, c.checkpoint, recs);
  }

  lemma SingleOrNot(c: Config, i: nat, st: Progress)
    requires i < |c.entries|
    ensures c.entries[i].step.Single? ==>
      var run := RunEntry(c, c.entries[i], st.next, st.bindings, st.cache); run.ok ==> run.bound.Some?
  {
    if c.entries[i].step.Single? { SingleRun(c, c.entries[i], st.next, st.bindings, st.cache); }
  }

  lemma {:induction false} RecordedKeeps(onDisk: bool, cp: Checkpoint, l: seq<Action>)
    ensures forall p | p in cp :: p in Recorded(onDisk, cp, l)
    decreases |l|
  {
    hide Kept;
    if l != [] { RecordedKeeps(onDisk, cp, Init(l)); }
  }

  lemma UpToNext(entries: seq<Entry>, cp: Checkpoint, i: nat)
    requires UpTo(entries, cp, i) && i < |entries| && (entries[i].step.Single? ==> i in cp)
    ensures UpTo(entries, cp, i + 1)
  {
  }

  lemma TurnRecordsWell(r: Config, c: Config, onDisk: bool, i: nat, st: Progress, rt: Progress)
    requires Reference(r) && Survives(r, onDisk) && Kin(c, r) && Sound(r, c.checkpoint)
    requires Arrives(r, i, rt) && Same(st, rt) && i < |c.entries|
    requires RecordsWell(r, c, onDisk, i, st) && TurnAt(c, i, st).GoesOn?
    ensures RecordsWell(r, c, onDisk, i + 1, TurnAt(c, i, st).state)
  {
    hide TurnAt, Arrives, Survives, Sound, TurnRecords, UpTo, Records;
    var recs := Records(Sequential(st.blocks));
    TurnRecorded(c, i, st);
    if TurnRecords(c, i, st) != [] {
      NewRecordSound(r, c, onDisk, i, st, rt);
    } else {
      assert recs + [] == recs;
      NoRecordNeeded(c, onDisk, i, st, recs);
      UpToNext(r.entries, Recorded(onDisk, c.checkpoint, recs), i);
    }
  }

  lemma StartRecords()
    ensures Records(Sequential(START.blocks)) == []
  {
    SequentialOne(Solo([Emit(WorkflowStarted)]));
    QuietRecords([Emit(WorkflowStarted)]);
  }

  lemma EmptySound(r: Config, onDisk: bool, cp: Checkpoint)
    requires Sound(r, cp)
    ensures AllSound(r, onDisk, cp, []) && Recorded(onDisk, cp, []) == cp
  {
    hide Sound;
    var none: seq<Action> := [];
    forall n: nat | n <= |none| ensures Sound(r, Recorded(onDisk, cp, none[..n])) {
      assert none[..n] == none;
    }
  }

  lemma StartRecordsWell(r: Config, c: Config, onDisk: bool)
    requires Sound(r, c.checkpoint)
    ensures RecordsWell(r, c, onDisk, 0, START)
  {
    hide Sound, AllSound, Records;
    StartRecords();
    EmptySound(r, onDisk, c.checkpoint);
  }

  lemma {:induction false} ArrivesRecording(r: Config, c: Config, onDisk: bool, i: nat, st: Progress)
    requires Reference(r) && Survives(r, onDisk) && Kin(c, r) && Sound(r, c.checkpoint) && Arrives(c, i, st)
    ensures RecordsWell(r, c, onDisk, i, st)
    decreases i
  {
    hide TurnAt, Arrives, Survives, Faithful, PrefixClosed, Kin, RecordsWell;
    KinEntriesAgree(c, r);
    if i == 0 {
      ArrivesAtStart(c, st);
      StartRecordsWell(r, c, onDisk);
    } else {
      ArrivesWithin(c, i, st);
      var before := ArrivesBefore(c, i, st);
      ArrivesRecording(r, c, onDisk, i - 1, before);
      var rt := Lockstep(r, c, i - 1, before);
      TurnRecordsWell(r, c, onDisk, i - 1, before, rt);
    }
  }

  /** Over a whole attempt: every prefix of its records leaves a sound checkpoint. */
  lemma RunRecordsSound(r: Config, c: Config, onDisk: bool)
    requires Reference(r) && Survives(r, onDisk) && Kin(c, r) && Sound(r, c.checkpoint)
    ensures AllSound(r, onDisk, c.checkpoint, Records(Sequential(Run(c).state.blocks)))
  {
    hide TurnAt, Survives, Sound, Kin, Records, AllSound, UpTo;
    var k, last := RunEnds(c);
    ArrivesRecording(r, c, onDisk, k, last);
    if k == |c.entries| { FinishRecords(last, true); } else { TurnRecorded(c, k, last); }
  }

  // ---------------------------------------------------------------- crashes

  /** The attempt performed the first n actions of some schedule, and left this checkpoint. */
  ghost predicate CrashAt(c: Config, onDisk: bool, l: seq<Action>, n: nat, cp: Checkpoint) {
    Linearizes(l, Run(c).state.blocks) && n <= |l| && cp == Recorded(onDisk, c.checkpoint, l[..n])
  }

  ghost predicate Leaves(c: Config, onDisk: bool, cp: Checkpoint) {
    exists l, n :: CrashAt(c, onDisk, l, n, cp)
  }

  /** A crash at any point of any schedule leaves a sound checkpoint. */
  lemma CrashStaysSound(r: Config, c: Config, onDisk: bool, cp: Checkpoint)
    requires Reference(r) && Survives(r, onDisk) && Kin(c, r) && Sound(r, c.checkpoint) && Leaves(c, onDisk, cp)
    ensures Sound(r, cp)
  {
    hide Run, Survives, Sound, Kin, AllSeparate, Separate;
    var l, n :| CrashAt(c, onDisk, l, n, cp);
    RunIsOrderly(c);
    LinearizationProjects(l, Run(c).state.blocks, OfStore);
    ProjectPrefix(l, n, OfStore);
    RecordedProjects(onDisk, c.checkpoint, l[..n]);
    RunRecordsSound(r, c, onDisk);
    var recs, some := Records(l), Records(l[..n]);
    assert some == recs[..|some|];
  }

  /** Attempts at one run, each starting from what the one before left when it stopped, at whatever point. */
  ghost predicate IsHistory(r: Config, onDisk: bool, attempts: seq<Config>) {
    && |attempts| > 0 && attempts[0].checkpoint == map[]
    && (forall i | 0 <= i < |attempts| :: Kin(attempts[i], r))
    && (forall i | 0 <= i < |attempts| - 1 :: Leaves(attempts[i], onDisk, attempts[i + 1].checkpoint))
  }

  /**
   Over any history of interrupted attempts the recorded positions are a prefix of the sequential
   positions, no group is ever recorded, and every record is the uninterrupted run's.
   */
  lemma {:induction false} HistoryStaysSound(r: Config, onDisk: bool, attempts: seq<Config>, i: nat)
    requires Reference(r) && Survives(r, onDisk) && IsHistory(r, onDisk, attempts) && i < |attempts|
    ensures Sound(r, attempts[i].checkpoint)
    decreases i
  {
    hide Survives, Kin, Leaves;
    if i > 0 {
      hide Sound;
      HistoryStaysSound(r, onDisk, attempts, i - 1);
      CrashStaysSound(r, attempts[i - 1], onDisk, attempts[i].checkpoint);
    }
  }

  /**
   Crash and resume.  After any number of attempts, each stopped after any action of any schedule
   (or by its own limits), a last attempt that nothing stops ends like one uninterrupted run: same
   status, same bindings, same outputs of every entry.
   */
  lemma CrashResume(r: Config, onDisk: bool, attempts: seq<Config>)
    requires Reference(r) && Survives(r, onDisk) && IsHistory(r, onDisk, attempts)
    requires !SomeCut(attempts[|attempts| - 1])
    ensures var c := attempts[|attempts| - 1];
      Run(c).ending == Run(r).ending && Same(Run(c).state, Run(r).state)
  {
    hide Survives, Kin, Leaves, Run, SomeCut;
    HistoryStaysSound(r, onDisk, attempts, |attempts| - 1);
    UncutRunEndsAlike(r, attempts[|attempts| - 1]);
  }

  /** With a cost budget: the last attempt is never cut earlier than a run from the start would be. */
  lemma CrashResumeWithinBudget(r: Config, onDisk: bool, attempts: seq<Config>, b: Config)
    requires Reference(r) && Survives(r, onDisk) && IsHistory(r, onDisk, attempts)
    requires Kin(b, r) && b.checkpoint == map[] && NonNegativeCosts(b)
    requires var c := attempts[|attempts| - 1]; c.policy.maxRuntime.None? && c.policy.maxCost == b.policy.maxCost
    ensures var c := attempts[|attempts| - 1];
      && Run(b).state.outputs <= Run(c).state.outputs
      && (!SomeCut(b) ==> Run(c).ending == Run(b).ending && Same(Run(c).state, Run(b).state))
  {
    hide Survives, Kin, Leaves, Run, SomeCut, NonNegativeCosts;
    HistoryStaysSound(r, onDisk, attempts, |attempts| - 1);
    BudgetedResume(r, attempts[|attempts| - 1], b);
  }

  // ---------------------------------------------------------------- recorded steps are not run again

  lemma MiddleNotFinish(l: seq<Action>, id: nat, fine: bool, plain: seq<Action>, pay: seq<Action>, k: nat, ok: bool)
    requires Shaped(l, id, fine, plain, pay) && k < |l| - 1
    ensures !IsFinish(l[k], id, ok)
  {
    if 0 < k <= |plain| { assert l[k] == plain[k - 1]; }
    else if k > |plain| { assert l[k] == pay[k - 1 - |plain|]; }
  }

  lemma FinishIsLast(l: seq<Action>, id: nat, k: nat, ok: bool)
    requires WholeStep(l, id) && k < |l| && IsFinish(l[k], id, ok)
    ensures k == |l| - 1
  {
    hide IsFinish, Shaped;
    var fine := Whole(l, id, true);
    var plain, pay :| Shaped(l, id, fine, plain, pay);
    if k < |l| - 1 { MiddleNotFinish(l, id, fine, plain, pay, k, ok); }
  }

  lemma WholeEnds(l: seq<Action>, id: nat)
    requires WholeStep(l, id)
    ensures l != [] && (IsFinish(Last(l), id, true) || IsFinish(Last(l), id, false))
  {
  }

  /** A step that is whole has nothing more to do. */
  lemma WholeIsAll(l: seq<Action>, more: seq<Action>, id: nat)
    requires WholeStep(l, id) && WholeStep(l + more, id)
    ensures more == []
  {
    hide WholeStep, IsFinish;
    WholeEnds(l, id);
    assert (l + more)[|l| - 1] == Last(l);
    FinishIsLast(l + more, id, |l| - 1, IsFinish(Last(l), id, true));
  }

  lemma {:induction false} BlocksGrow(c: Config, i: nat, st: Progress)
    requires i <= |c.entries|
    ensures st.blocks <= Remaining(c, i, st).state.blocks
    decreases |c.entries| - i
  {
    hide TurnAt, Remaining;
    if i == |c.entries| {
      RemainingEnd(c, st);
    } else {
      RemainingTurn(c, i, st);
      TurnGrowsBlocks(c, i, st);
      if TurnAt(c, i, st).GoesOn? { BlocksGrow(c, i + 1, TurnAt(c, i, st).state); }
    }
  }

  lemma TurnGrowsBlocks(c: Config, i: nat, st: Progress)
    requires i < |c.entries|
    ensures match TurnAt(c, i, st)
      case GoesOn(st') => st.blocks <= st'.blocks
      case Stops(r) => st.blocks <= r.state.blocks
  {
    hide RunEntry, Storable, Measure;
  }

  lemma OrderlyWhole(st: Progress, id: nat)
    requires Orderly(st) && 1 <= id < st.next
    ensures WholeStep(Project(Sequential(st.blocks), OfStep(id)), id)
  {
  }

  lemma EndWhole(r: RunResult, id: nat)
    requires OrderlyEnd(r) && Project(Sequential(r.state.blocks), OfStep(id)) != []
    ensures WholeStep(Project(Sequential(r.state.blocks), OfStep(id)), id)
  {
  }

  /** A step that is whole before some point of the run does nothing after it. */
  lemma WholeStays(c: Config, i: nat, st: Progress, id: nat)
    requires Arrives(c, i, st) && 1 <= id < st.next
    ensures Project(Sequential(Run(c).state.blocks), OfStep(id)) == Project(Sequential(st.blocks), OfStep(id))
  {
    hide Run, Remaining, Arrives, WholeStep, Orderly, OrderlyEnd;
    ArrivesOrderly(c, i, st);
    OrderlyWhole(st, id);
    ArrivesRemaining(c, i, st);
    BlocksGrow(c, i, st);
    RunIsOrderly(c);
    var all := Run(c).state.blocks;
    var rest := all[|st.blocks|..];
    assert all == st.blocks + rest;
    SequentialConcat(st.blocks, rest);
    ProjectConcat(Sequential(st.blocks), Sequential(rest), OfStep(id));
    WholeEnds(Project(Sequential(st.blocks), OfStep(id)), id);
    EndWhole(Run(c), id);
    WholeIsAll(Project(Sequential(st.blocks), OfStep(id)), Project(Sequential(rest), OfStep(id)), id);
  }

  lemma ReplayNeverExecutes(l: seq<Action>, id: nat, saved: Saved)
    requires Project(l, OfStep(id)) == ReplayActions(id, saved)
    ensures forall attempt :: Execute(id, attempt) !in l
  {
    ProjectElements(l, OfStep(id));
    assert forall a | a in ReplayActions(id, saved) :: !a.Execute?;
    assert forall attempt :: KeyOf(Execute(id, attempt)) == OfStep(id);
  }

  /** On no schedule does a resumed run do anything for a recorded step but replay it. */
  lemma RecordedStepsAreReplayed(r: Config, c: Config, i: nat, st: Progress, l: seq<Action>)
    requires Reference(r) && Kin(c, r) && Faithful(r, c.checkpoint)
    requires Arrives(c, i, st) && i in c.checkpoint && !Cut(c, i, st)
    requires Linearizes(l, Run(c).state.blocks)
    ensures var id, saved := st.next, c.checkpoint[i];
      Project(l, OfStep(id)) == [Emit(StepStarted(id, saved.tool, None, true)), Emit(ToolSucceeded(id, saved.tool, saved.output, None)),
                                 Emit(StepFinished(id, saved.tool, true, None))]
    ensures forall attempt :: Execute(st.next, attempt) !in l
  {
    hide Run, Kin, Whole, AllSeparate, Separate, Arrives, Moves, Reference, Faithful, Cut;
    var id, saved := st.next, c.checkpoint[i];
    var st' := ReplayArrives(r, c, i, st);
    ArrivesOrderly(c, i, st);
    ReplayProjects(st, c.entries[i], saved);
    WholeStays(c, i + 1, st', id);
    RunIsOrderly(c);
    LinearizationProjects(l, Run(c).state.blocks, OfStep(id));
    ReplayNeverExecutes(l, id, saved);
  }

  lemma ReplayArrives(r: Config, c: Config, i: nat, st: Progress) returns (st': Progress)
    requires Reference(r) && Kin(c, r) && Faithful(r, c.checkpoint)
    requires Arrives(c, i, st) && i in c.checkpoint && !Cut(c, i, st)
    ensures i < |c.entries| && Arrives(c, i + 1, st') && st' == Replay(st, c.entries[i], c.checkpoint[i])
  {
    hide RunEntry, Kin;
    KinEntriesAgree(c, r);
    assert FaithfulAt(r, i, c.checkpoint[i]);
    var rt :| RecordsAt(r, i, rt, c.checkpoint[i]);
    st' := Replay(st, c.entries[i], c.checkpoint[i]);
    assert TurnAt(c, i, st) == GoesOn(st');
    ArrivesNext(c, i, st);
  }

  lemma ReplayProjects(st: Progress, e: Entry, saved: Saved)
    requires Orderly(st)
    ensures st.next >= 1
    ensures Project(Sequential(Replay(st, e, saved).blocks), OfStep(st.next)) == ReplayActions(st.next, saved)
  {
    hide AllSeparate, WholeStep;
    var actions := ReplayActions(st.next, saved);
    SequentialSnoc(st.blocks, Solo(actions));
    ProjectConcat(Sequential(st.blocks), actions, OfStep(st.next));
    ReplayAbout(st.next, saved);
    ProjectAll(actions, OfStep(st.next));
    assert [] + actions == actions;
  }

  lemma ReplayAbout(id: nat, saved: Saved)
    ensures About(ReplayActions(id, saved), OfStep(id))
  {
  }

  // ---------------------------------------------------------------- what does not survive the file

  /** A workflow of one tool that returns v, bound to a name. */
  function OneStep(v: Value, checkpoint: Checkpoint): Config {
    var tool := Tool("t", true, 0, [], (_, _, _) => Returned(v), (_, _) => map[]);
    Config([Entry(Single(tool), None, Some("x"))], Policy(false, None, None, None, {}),
           World((_, _) => true, _ => false), checkpoint, true)
  }

  /** Resuming it from the file store binds the same value exactly when the value holds no tuple. */
  lemma OneStepResumes(v: Value)
    requires Storable(v)
    ensures var saved := map[0 := Saved("t", Kept(true, v))];
      Run(OneStep(v, saved)).state.bindings == Run(OneStep(v, map[])).state.bindings <==> TupleFree(v)
  {
    hide Storable, Reload, TupleFree;
    var saved: Checkpoint := map[0 := Saved("t", Kept(true, v))];
    ReloadIsIdentity(v);
    OneStepFirst(v);
    OneStepAgain(v, saved);
    assert map["x" := v] == map["x" := Reload(v)] ==> map["x" := v]["x"] == map["x" := Reload(v)]["x"];
  }

  lemma OneStepFirst(v: Value)
    requires Storable(v)
    ensures Run(OneStep(v, map[])).state.bindings == map["x" := v]
  {
    hide Storable, Finish;
    var cfg := OneStep(v, map[]);
    var run := ToolRun(cfg.policy, cfg.world, cfg.entries[0].step.tool, None, 1, None, map[], true);
    assert run.output == Some(v);
    assert RunFrom(cfg, 0, START) == RunFrom(cfg, 1, TurnAt(cfg, 0, START).state);
    FinishBinds(TurnAt(cfg, 0, START).state);
  }

  lemma OneStepAgain(v: Value, checkpoint: Checkpoint)
    requires 0 in checkpoint && checkpoint[0].tool == "t"
    ensures Run(OneStep(v, checkpoint)).state.bindings == map["x" := checkpoint[0].output]
  {
    hide Storable, Finish;
    var cfg := OneStep(v, checkpoint);
    assert TurnAt(cfg, 0, START) == GoesOn(Replay(START, cfg.entries[0], checkpoint[0]));
    assert RunFrom(cfg, 0, START) == RunFrom(cfg, 1, TurnAt(cfg, 0, START).state);
    FinishBinds(TurnAt(cfg, 0, START).state);
  }

  lemma FinishBinds(st: Progress)
    ensures Finish(st, true).state.bindings == st.bindings
  {
  }
}
