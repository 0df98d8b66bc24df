/**
 A group's record on every schedule: its members, its kind, whether it succeeded, and each of its steps
 exactly once, however its threads interleave.
 */
module GroupRecords {
  import opened Wrappers
  import opened Values
  import opened Runtime
  import opened Merges
  import opened Blocks
  import opened Measures
  import opened Workers
  import opened WorkerLaws
  import opened Plans
  import opened GroupLaws
  import opened StepLaws
  import opened RunLaws
  import opened Outcomes
  import opened Journals
  import opened StepRecords
  import opened Jobs
  import opened Resume
  import RunGraphs
  import opened Checkpoints
  import opened Crashes
  import opened GroupTags
  import opened JournalLaws
  import opened EntryTraces

  // ---------------------------------------------------------------- no entry touches another's group

  lemma BlocksAvoid(cfg: Config, i: nat, st: Progress, g: GroupId)
    requires i < |cfg.entries| && EntryTag(cfg.entries[i]) != Some(g)
    ensures Avoids(Sequential(BlocksOf(cfg, i, st)), OfGroup(g))
  {
    hide RunEntry, GroupOpens;
    EntryTagged(cfg, cfg.entries[i], st.next, st.bindings, st.cache);
    var l := Sequential(BlocksOf(cfg, i, st));
    forall n | 0 <= n < |l| ensures KeyOf(l[n]) != OfGroup(g) {
      assert IsTagged(l[n], EntryTag(cfg.entries[i]));
    }
  }

  lemma TurnAvoids(cfg: Config, i: nat, st: Progress, g: GroupId)
    requires Arrives(cfg, i, st) && i < |cfg.entries| && EntryTag(cfg.entries[i]) != Some(g)
    ensures var after := match TurnAt(cfg, i, st) case GoesOn(st') => st'.blocks case Stops(r) => r.state.blocks;
      Project(Sequential(after), OfGroup(g)) == Project(Sequential(st.blocks), OfGroup(g))
  {
    hide TurnAt, BlocksOf, Aside, Arrives;
    if Starts(cfg, i, st) {
      hide Starts;
      var rest := TurnPerforms(cfg, i, st);
      BlocksConcat3(st.blocks, BlocksOf(cfg, i, st), rest, OfGroup(g));
      BlocksAvoid(cfg, i, st, g);
      ProjectNone(Sequential(BlocksOf(cfg, i, st)), OfGroup(g));
      AsideAvoids(rest, OfGroup(g));
    } else {
      hide Starts;
      IdleTurnAvoids(cfg, i, st, g);
    }
  }

  lemma IdleTurnAvoids(cfg: Config, i: nat, st: Progress, g: GroupId)
    requires Arrives(cfg, i, st) && i < |cfg.entries| && !Starts(cfg, i, st)
    ensures var after := match TurnAt(cfg, i, st) case GoesOn(st') => st'.blocks case Stops(r) => r.state.blocks;
      Project(Sequential(after), OfGroup(g)) == Project(Sequential(st.blocks), OfGroup(g))
  {
    hide Arrives, AfterRunning, RunEntry, ReplayActions;
    if TurnAt(cfg, i, st).Stops? {
      hide TurnAt, Starts;
      CutLeaves(cfg, i, st);
      FinishAvoids(st, false, g);
    } else {
      var actions := ReplayActions(st.next, cfg.checkpoint[i]);
      SequentialSnoc(st.blocks, Solo(actions));
      ProjectConcat(Sequential(st.blocks), actions, OfGroup(g));
      ReplayAvoids(st.next, cfg.checkpoint[i], g);
      ProjectNone(actions, OfGroup(g));
    }
  }

  lemma FinishAvoids(st: Progress, success: bool, g: GroupId)
    ensures Project(Sequential(Finish(st, success).state.blocks), OfGroup(g)) == Project(Sequential(st.blocks), OfGroup(g))
  {
    FinishAside(st, success);
    var more := [Solo([Emit(WorkflowFinished(success))])];
    SequentialConcat(st.blocks, more);
    ProjectConcat(Sequential(st.blocks), Sequential(more), OfGroup(g));
    AsideAvoids(more, OfGroup(g));
    AddEmpty(Project(Sequential(st.blocks), OfGroup(g)));
  }

  lemma ReplayAvoids(id: nat, saved: Saved, g: GroupId)
    ensures Avoids(ReplayActions(id, saved), OfGroup(g))
  {
  }

  lemma {:induction false} RemainingAvoids(cfg: Config, i: nat, st: Progress, g: GroupId)
    requires Arrives(cfg, i, st) && i <= |cfg.entries|
    requires forall j | i <= j < |cfg.entries| :: EntryTag(cfg.entries[j]) != Some(g)
    ensures Project(Sequential(Remaining(cfg, i, st).state.blocks), OfGroup(g)) == Project(Sequential(st.blocks), OfGroup(g))
    decreases |cfg.entries| - i
  {
    hide TurnAt, Remaining, Arrives, EntryTag;
    if i == |cfg.entries| {
      RemainingEnd(cfg, st);
      FinishAvoids(st, true, g);
    } else {
      RemainingTurn(cfg, i, st);
      TurnAvoids(cfg, i, st, g);
      match TurnAt(cfg, i, st)
      case GoesOn(st') =>
        ArrivesNext(cfg, i, st);
        RemainingAvoids(cfg, i + 1, st', g);
      case Stops(_) =>
    }
  }

  lemma {:induction false} ArrivesAvoids(cfg: Config, i: nat, st: Progress, g: GroupId)
    requires Arrives(cfg, i, st) && i <= |cfg.entries|
    requires forall j | 0 <= j < i :: EntryTag(cfg.entries[j]) != Some(g)
    ensures Project(Sequential(st.blocks), OfGroup(g)) == []
    decreases i
  {
    hide TurnAt, Arrives, EntryTag;
    if i == 0 {
      ArrivesAtStart(cfg, st);
      SequentialOne(Solo([Emit(WorkflowStarted)]));
      ProjectNone([Emit(WorkflowStarted)], OfGroup(g));
    } else {
      var before := ArrivesBefore(cfg, i, st);
      ArrivesAvoids(cfg, i - 1, before, g);
      TurnAvoids(cfg, i - 1, before, g);
    }
  }

  /** On every schedule, all that is said of a started group is what its own entry says. */
  lemma GroupInTrace(cfg: Config, i: nat, st: Progress, l: seq<Action>, g: GroupId)
    requires Starts(cfg, i, st) && Linearizes(l, Run(cfg).state.blocks) && DistinctGroups(cfg.entries)
    requires i < |cfg.entries| && EntryTag(cfg.entries[i]) == Some(g)
    ensures Project(l, OfGroup(g)) == Project(Sequential(BlocksOf(cfg, i, st)), OfGroup(g))
  {
    hide Run, BlocksOf, TurnAt, Aside, Starts, Arrives, Remaining, Separate;
    StartsArrives(cfg, i, st);
    OnlyTag(cfg.entries, i, g);
    hide DistinctGroups, EntryTag;
    ArrivesAvoids(cfg, i, st, g);
    RunIsOrderly(cfg);
    LinearizationProjects(l, Run(cfg).state.blocks, OfGroup(g));
    var rest := TurnPerforms(cfg, i, st);
    BlocksConcat3(st.blocks, BlocksOf(cfg, i, st), rest, OfGroup(g));
    AsideAvoids(rest, OfGroup(g));
    AddNothing(Project(Sequential(BlocksOf(cfg, i, st)), OfGroup(g)));
    AfterTurnAvoids(cfg, i, st, g);
  }

  lemma AfterTurnAvoids(cfg: Config, i: nat, st: Progress, g: GroupId)
    requires Arrives(cfg, i, st) && i < |cfg.entries| && forall j | i < j < |cfg.entries| :: EntryTag(cfg.entries[j]) != Some(g)
    ensures var after := match TurnAt(cfg, i, st) case GoesOn(st') => st'.blocks case Stops(r) => r.state.blocks;
      Project(Sequential(Run(cfg).state.blocks), OfGroup(g)) == Project(Sequential(after), OfGroup(g))
  {
    hide Run, TurnAt, Arrives, Remaining, EntryTag;
    match TurnAt(cfg, i, st)
    case GoesOn(st') =>
      ArrivesNext(cfg, i, st);
      ArrivesRemaining(cfg, i + 1, st');
      RemainingAvoids(cfg, i + 1, st', g);
    case Stops(r) => StopsRun(cfg, i, st);
  }

  lemma OnlyTag(entries: seq<Entry>, i: nat, g: GroupId)
    requires DistinctGroups(entries) && i < |entries| && EntryTag(entries[i]) == Some(g)
    ensures forall j | 0 <= j < |entries| && j != i :: EntryTag(entries[j]) != Some(g)
  {
  }

  // ---------------------------------------------------------------- what an entry says of its group

  /** Every member ended with an output; a consensus also agreed, and a fallback it called ended with one. */
  predicate GroupSucceeds(cfg: Config, e: Entry, st: Progress)
    requires !e.step.Single?
  {
    if e.step.Parallel? then AllVoted(cfg, e, st)
    else match VotesOf(cfg, e, st)
      case None => false
      case Some(votes) =>
        match e.step.strategy(DecisionId(e, st), votes)
        case Disagreed(_) => false
        case Agreed(_, metadata) =>
          e.step.fallback.Some? && ReportsBelow(metadata, e.step.fallback.value.field, e.step.fallback.value.below) ==>
            EndOf(cfg.policy, cfg.world, e.step.fallback.value.tool, e.agent, DecisionId(e, st) + 1, st.bindings).Returned?
  }

  lemma DecideAvoids(cfg: Config, step: Step, agent: Option<Agent>, votes: seq<Value>, id: nat, b: Bindings, g: GroupId)
    requires step.Consensus?
    ensures Avoids(Decide(cfg, step, agent, votes, id, b).actions, OfGroup(g))
  {
    hide ToolRun, DecisionOpening, DecisionAgreed, DecisionRefused;
    match step.strategy(id, votes)
    case Disagreed(x) => RefusalWhole(step.name, id, step.id, StrategyError(x));
    case Agreed(value, metadata) =>
      AgreementWhole(step.name, id, step.id, value, metadata);
      if Triggers(step.fallback, metadata) {
        ToolRunAbout(cfg.policy, cfg.world, step.fallback.value.tool, agent, id + 1, Some(step.id), b, false);
      }
  }

  lemma TriggersIff(step: Step, id: nat, votes: seq<Value>)
    requires step.Consensus?
    ensures step.strategy(id, votes).Agreed? ==>
      (Triggers(step.fallback, step.strategy(id, votes).metadata) <==>
        step.fallback.Some? && ReportsBelow(step.strategy(id, votes).metadata, step.fallback.value.field, step.fallback.value.below))
  {
  }

  lemma DecideSucceeds(cfg: Config, step: Step, agent: Option<Agent>, votes: seq<Value>, id: nat, b: Bindings)
    requires step.Consensus?
    ensures Decide(cfg, step, agent, votes, id, b).ok <==>
      match step.strategy(id, votes)
      case Disagreed(_) => false
      case Agreed(_, metadata) =>
        step.fallback.Some? && ReportsBelow(metadata, step.fallback.value.field, step.fallback.value.below) ==>
          EndOf(cfg.policy, cfg.world, step.fallback.value.tool, agent, id + 1, b).Returned?
  {
    hide ToolRun, EndOf, DecisionOpening, DecisionAgreed, DecisionRefused, Triggers, ReportsBelow;
    TriggersIff(step, id, votes);
    if step.fallback.Some? {
      OutputIs(cfg.policy, cfg.world, step.fallback.value.tool, agent, id + 1, Some(step.id), b, false);
    }
  }

  lemma NothingAvoids(step: Step, id: nat, g: GroupId)
    requires step.Consensus? && step.source.Some?
    ensures Avoids(DecideNothing(step, id).actions, OfGroup(g))
  {
    hide DecisionOpening, DecisionRefused;
    RefusalWhole(step.name, id, step.id, NothingToReuse(step.source.value));
  }

  lemma MembersSayNothing(cfg: Config, e: Entry, st: Progress, g: GroupId)
    requires !e.step.Single?
    ensures Avoids(InOrder(Fork(Members(MemberRuns(cfg, e.step.tools, e.agent, st.next, e.step.id, st.bindings)))), OfGroup(g))
  {
    hide MemberRuns, Members;
    NoMemberOwns(cfg, e.step.tools, e.agent, st.next, e.step.id, st.bindings, OfGroup(g));
    FlattenAvoids(Members(MemberRuns(cfg, e.step.tools, e.agent, st.next, e.step.id, st.bindings)), OfGroup(g));
  }

  /** What a group's entry says of the group: that it starts, with its members' names and kind, and how it ends. */
  function SaidOf(step: Step, ok: bool): seq<Action>
    requires !step.Single?
  {
    [Emit(GroupStarted(step.id, seq(|step.tools|, k requires 0 <= k < |step.tools| => step.tools[k].name), step.Consensus?)),
     Emit(GroupFinished(step.id, ok))]
  }

  lemma BracketsSay(step: Step, ok: bool)
    requires !step.Single?
    ensures Project(InOrder(Opened(step)), OfGroup(step.id)) + Project(InOrder(Closed(step, ok)), OfGroup(step.id)) == SaidOf(step, ok)
  {
    hide Project;
    ProjectAll(InOrder(Opened(step)), OfGroup(step.id));
    ProjectAll(InOrder(Closed(step, ok)), OfGroup(step.id));
    NamesOf(step.tools);
  }

  lemma NamesOf(tools: seq<Tool>)
    ensures Names(tools) == seq(|tools|, k requires 0 <= k < |tools| => tools[k].name)
  {
  }

  /** Only the first and the last of an entry's blocks speak of the group. */
  lemma BlocksSay(step: Step, ok: bool, middle: seq<Block>)
    requires !step.Single? && 1 <= |middle| <= 2
    requires forall k | 0 <= k < |middle| :: Avoids(InOrder(middle[k]), OfGroup(step.id))
    ensures Project(Sequential([Opened(step)] + middle + [Closed(step, ok)]), OfGroup(step.id)) == SaidOf(step, ok)
  {
    hide InOrder, Opened, Closed, SaidOf, Sequential;
    BracketsSay(step, ok);
    ProjectNone(InOrder(middle[0]), OfGroup(step.id));
    if |middle| == 1 {
      assert [Opened(step)] + middle + [Closed(step, ok)] == [Opened(step), middle[0], Closed(step, ok)];
      ThreeProject(Opened(step), middle[0], Closed(step, ok), OfGroup(step.id));
    } else {
      ProjectNone(InOrder(middle[1]), OfGroup(step.id));
      assert [Opened(step)] + middle + [Closed(step, ok)] == [Opened(step), middle[0], middle[1], Closed(step, ok)];
      FourProject(Opened(step), middle[0], middle[1], Closed(step, ok), OfGroup(step.id));
    }
  }

  lemma ParallelSays(cfg: Config, i: nat, st: Progress)
    requires i < |cfg.entries| && cfg.entries[i].step.Parallel?
    ensures var e := cfg.entries[i];
      Project(Sequential(BlocksOf(cfg, i, st)), OfGroup(e.step.id)) == SaidOf(e.step, GroupSucceeds(cfg, e, st))
  {
    hide MemberRuns, Members, Opened, Closed, AllVoted, AllSucceeded, SaidOf, Sequential;
    var e := cfg.entries[i];
    var runs := MemberRuns(cfg, e.step.tools, e.agent, st.next, e.step.id, st.bindings);
    MembersVote(cfg, e, st);
    var middle := [Fork(Members(runs))];
    MembersSayNothing(cfg, e, st, e.step.id);
    BlocksSay(e.step, AllSucceeded(runs), middle);
    assert BlocksOf(cfg, i, st) == [Opened(e.step)] + middle + [Closed(e.step, AllSucceeded(runs))];
  }

  /** Voters that agreed to nothing: their outputs never got to be votes. */
  lemma VotersFailed(cfg: Config, i: nat, st: Progress)
    requires i < |cfg.entries| && cfg.entries[i].step.Consensus? && cfg.entries[i].step.source.None?
    requires VotesOf(cfg, cfg.entries[i], st).None?
    ensures var e := cfg.entries[i];
      BlocksOf(cfg, i, st) == [Opened(e.step), Fork(Members(MemberRuns(cfg, e.step.tools, e.agent, st.next, e.step.id, st.bindings))), Closed(e.step, false)]
  {
    hide MemberRuns, Members, Opened, Closed, AllVoted, AllSucceeded, EndOf, Decide, RunReuse;
    MembersVote(cfg, cfg.entries[i], st);
  }

  lemma VotersSay(cfg: Config, i: nat, st: Progress)
    requires i < |cfg.entries| && cfg.entries[i].step.Consensus? && cfg.entries[i].step.source.None?
    ensures var e := cfg.entries[i];
      Project(Sequential(BlocksOf(cfg, i, st)), OfGroup(e.step.id)) == SaidOf(e.step, GroupSucceeds(cfg, e, st))
  {
    hide MemberRuns, Members, Opened, Closed, SaidOf, Sequential, BlocksOf, VotesOf, NextOf, Decide, ReportsBelow, EndOf;
    var e := cfg.entries[i];
    var g := e.step.id;
    var fork := Fork(Members(MemberRuns(cfg, e.step.tools, e.agent, st.next, g, st.bindings)));
    MembersSayNothing(cfg, e, st, g);
    match VotesOf(cfg, e, st)
    case None =>
      VotersFailed(cfg, i, st);
      BlocksSay(e.step, false, [fork]);
      assert BlocksOf(cfg, i, st) == [Opened(e.step)] + [fork] + [Closed(e.step, false)];
    case Some(votes) =>
      VotersShape(cfg, i, st, votes);
      var d := Decide(cfg, e.step, e.agent, votes, DecisionId(e, st), st.bindings);
      DecideAvoids(cfg, e.step, e.agent, votes, DecisionId(e, st), st.bindings, g);
      DecideSucceeds(cfg, e.step, e.agent, votes, DecisionId(e, st), st.bindings);
      BlocksSay(e.step, d.ok, [fork, Solo(d.actions)]);
      assert BlocksOf(cfg, i, st) == [Opened(e.step)] + [fork, Solo(d.actions)] + [Closed(e.step, d.ok)];
  }

  lemma ReuseSays(cfg: Config, i: nat, st: Progress)
    requires i < |cfg.entries| && cfg.entries[i].step.Consensus? && cfg.entries[i].step.source.Some?
    ensures var e := cfg.entries[i];
      Project(Sequential(BlocksOf(cfg, i, st)), OfGroup(e.step.id)) == SaidOf(e.step, GroupSucceeds(cfg, e, st))
  {
    hide Opened, Closed, SaidOf, Sequential, Decide, ReportsBelow, EndOf, RunVoters, NothingToReuse, DecisionOpening, DecisionRefused;
    var e := cfg.entries[i];
    var g := e.step.id;
    match VotesOf(cfg, e, st)
    case None =>
      NothingAvoids(e.step, st.next, g);
      var middle := [Solo(DecideNothing(e.step, st.next).actions)];
      BlocksSay(e.step, false, middle);
      assert BlocksOf(cfg, i, st) == [Opened(e.step)] + middle + [Closed(e.step, false)];
    case Some(votes) =>
      var d := Decide(cfg, e.step, e.agent, votes, st.next, st.bindings);
      DecideAvoids(cfg, e.step, e.agent, votes, st.next, st.bindings, g);
      DecideSucceeds(cfg, e.step, e.agent, votes, st.next, st.bindings);
      BlocksSay(e.step, d.ok, [Solo(d.actions)]);
      assert BlocksOf(cfg, i, st) == [Opened(e.step)] + [Solo(d.actions)] + [Closed(e.step, d.ok)];
  }

  // ---------------------------------------------------------------- the steps a group's record lists

  predicate StartsTagged(a: Action, g: GroupId, id: nat) {
    a.Emit? && a.event.StepStarted? && a.event.group == Some(g) && a.event.id == id
  }

  /** How often the step starts with the group's tag. */
  function TaggedStarts(l: seq<Action>, g: GroupId, id: nat): nat {
    if l == [] then 0 else TaggedStarts(Init(l), g, id) + if StartsTagged(Last(l), g, id) then 1 else 0
  }

  lemma TaggedStartsSnoc(l: seq<Action>, a: Action, g: GroupId, id: nat)
    ensures TaggedStarts(l + [a], g, id) == TaggedStarts(l, g, id) + if StartsTagged(a, g, id) then 1 else 0
  {
    assert Init(l + [a]) == l;
  }

  lemma {:induction false} TaggedStartsProject(l: seq<Action>, g: GroupId, id: nat)
    ensures TaggedStarts(Project(l, OfStep(id)), g, id) == TaggedStarts(l, g, id)
    decreases |l|
  {
    if l != [] {
      TaggedStartsProject(Init(l), g, id);
      TaggedStartsSnoc(Project(Init(l), OfStep(id)), Last(l), g, id);
      ProjectSnoc(Init(l), Last(l), OfStep(id));
      assert Init(l) + [Last(l)] == l;
      AddEmpty(Project(Init(l), OfStep(id)));
    }
  }

  lemma AddEmpty<T>(s: seq<T>)
    ensures s + [] == s
  {
  }

  lemma {:induction false} NeverTagged(l: seq<Action>, g: GroupId, id: nat)
    requires forall n | 0 <= n < |l| :: !StartsTagged(l[n], g, id)
    ensures TaggedStarts(l, g, id) == 0
    decreases |l|
  {
    if l != [] {
      NeverTagged(Init(l), g, id);
      assert Last(l) == l[|l| - 1];
    }
  }

  lemma {:induction false} FirstTagged(l: seq<Action>, g: GroupId, id: nat)
    requires l != [] && forall n | 0 < n < |l| :: !StartsTagged(l[n], g, id)
    ensures TaggedStarts(l, g, id) == if StartsTagged(l[0], g, id) then 1 else 0
    decreases |l|
  {
    if |l| > 1 {
      FirstTagged(Init(l), g, id);
      assert Last(l) == l[|l| - 1];
    } else {
      assert Init(l) == [];
    }
  }

  predicate OpensGroup(a: Action, g: GroupId) {
    a.Emit? && a.event.GroupStarted? && a.event.gid == g
  }

  /** The group is announced at most once. */
  predicate OpenedOnce(l: seq<Action>, g: GroupId) {
    forall n, m | 0 <= n < m < |l| :: !(OpensGroup(l[n], g) && OpensGroup(l[m], g))
  }

  /** The steps that start with the group's tag, in the order they start. */
  function TaggedIds(l: seq<Action>, g: GroupId): seq<nat> {
    if l == [] then []
    else TaggedIds(Init(l), g)
         + if Last(l).Emit? && Last(l).event.StepStarted? && Last(l).event.group == Some(g) then [Last(l).event.id] else []
  }

  lemma TaggedIdsSnoc(l: seq<Action>, a: Action, g: GroupId)
    ensures TaggedIds(l + [a], g) ==
      TaggedIds(l, g) + if a.Emit? && a.event.StepStarted? && a.event.group == Some(g) then [a.event.id] else []
  {
    assert Init(l + [a]) == l;
  }

  lemma CountSnoc(ids: seq<nat>, x: nat, id: nat)
    ensures multiset(ids + [x])[id] == multiset(ids)[id] + if x == id then 1 else 0
  {
  }

  lemma {:induction false} TaggedCount(l: seq<Action>, g: GroupId, id: nat)
    ensures multiset(TaggedIds(l, g))[id] == TaggedStarts(l, g, id)
    decreases |l|
  {
    if l != [] {
      TaggedCount(Init(l), g, id);
      var a := Last(l);
      AddEmpty(TaggedIds(Init(l), g));
      if a.Emit? && a.event.StepStarted? && a.event.group == Some(g) { CountSnoc(TaggedIds(Init(l), g), a.event.id, id); }
    }
  }

  /** What a journal lists for a group that was opened. */
  predicate ListsStarts(j: Journal, l: seq<Action>, g: GroupId)
    requires Consistent(j)
  {
    if HasStarted(l, g) then GroupRecordOf(j, g).Some? && GroupRecordOf(j, g).value.stepIds == TaggedIds(l, g)
    else GroupRecordOf(j, g).None? && TaggedIds(l, g) == []
  }

  /** One event's effect on what a group's record lists. */
  lemma OnEventLists(j: Journal, e: Event, g: GroupId)
    requires Consistent(j) && !(OpensGroup(Emit(e), g) && GroupRecordOf(j, g).Some?)
    requires e.StepStarted? && e.group == Some(g) ==> GroupRecordOf(j, g).Some?
    ensures GroupRecordOf(OnEvent(j, e), g).Some? <==> GroupRecordOf(j, g).Some? || OpensGroup(Emit(e), g)
    ensures GroupRecordOf(OnEvent(j, e), g).Some? ==>
      GroupRecordOf(OnEvent(j, e), g).value.stepIds ==
        (if GroupRecordOf(j, g).Some? then GroupRecordOf(j, g).value.stepIds else [])
        + if e.StepStarted? && e.group == Some(g) then [e.id] else []
  {
    hide OnStep, NewRecord, UpdateStep;
    if GroupRecordOf(j, g).Some? { AddEmpty(GroupRecordOf(j, g).value.stepIds); }
    if e.StepStarted? {
      StartLists(j, e, g);
      hide StartStep;
    } else if e.GroupFinished? {
      hide FinishGroup;
      FinishGroupRecord(j, e, g);
    } else if IsStepEvent(e) {
      UpdateLists(j, e, g);
    }
  }

  lemma UpdateLists(j: Journal, e: Event, g: GroupId)
    requires Consistent(j) && IsStepEvent(e)
    ensures GroupRecordOf(UpdateStep(j, e), g) == GroupRecordOf(j, g)
  {
    hide OnStep;
  }

  lemma StartLists(j: Journal, e: Event, g: GroupId)
    requires Consistent(j) && e.StepStarted?
    ensures GroupRecordOf(StartStep(j, e), g) ==
      if e.group == Some(g) && g in j.groupAt
      then Some(GroupRecordOf(j, g).value.(stepIds := GroupRecordOf(j, g).value.stepIds + [e.id]))
      else GroupRecordOf(j, g)
  {
    hide NewRecord;
    if e.group.Some? && e.group.value != g && e.group.value in j.groupAt && g in j.groupAt {
      assert j.groupAt[e.group.value] != j.groupAt[g];
    }
  }

  lemma StartedSnoc(l: seq<Action>, a: Action, g: GroupId)
    ensures HasStarted(l + [a], g) <==> HasStarted(l, g) || OpensGroup(a, g)
  {
    if HasStarted(l, g) { StartedStays(l, [a], g); }
    if OpensGroup(a, g) { assert (l + [a])[|l|] == a; }
    if HasStarted(l + [a], g) {
      var n :| 0 <= n < |l + [a]| && (l + [a])[n].Emit? && (l + [a])[n].event.GroupStarted? && (l + [a])[n].event.gid == g;
      if n < |l| { assert l[n] == (l + [a])[n]; }
    }
  }

  /** A group's record lists the steps that started with the group's tag, in that order. */
  lemma {:induction false} RecordLists(l: seq<Action>, g: GroupId)
    requires Announced(l) && OpenedOnce(l, g)
    ensures ListsStarts(JournalOf(l), l, g)
    decreases |l|
  {
    hide OnEvent, JournalOf, HasStarted, GroupRecordOf, TaggedIds;
    if l == [] {
      NothingListed(g);
    } else {
      var before, a := Init(l), Last(l);
      assert before + [a] == l;
      InitKeeps(l, g);
      RecordLists(before, g);
      JournalSnoc(before, a);
      TaggedIdsSnoc(before, a, g);
      AddEmpty(TaggedIds(before, g));
      StartedSnoc(before, a, g);
      LastAnnounced(l, g);
      if a.Emit? { OnEventLists(JournalOf(before), a.event, g); }
    }
  }

  lemma NothingListed(g: GroupId)
    ensures ListsStarts(JournalOf([]), [], g)
  {
  }

  lemma InitKeeps(l: seq<Action>, g: GroupId)
    requires l != [] && Announced(l) && OpenedOnce(l, g)
    ensures Announced(Init(l)) && OpenedOnce(Init(l), g)
  {
    hide HasStarted, Needs;
    forall n | 0 <= n < |Init(l)| ensures AnnouncedAt(Init(l), n) {
      assert AnnouncedAt(l, n) && Init(l)[..n] == l[..n];
    }
  }

  lemma LastAnnounced(l: seq<Action>, g: GroupId)
    requires l != [] && Announced(l) && OpenedOnce(l, g)
    ensures OpensGroup(Last(l), g) ==> !HasStarted(Init(l), g)
    ensures Last(l).Emit? && Last(l).event.StepStarted? && Last(l).event.group == Some(g) ==> HasStarted(Init(l), g)
  {
    assert AnnouncedAt(l, |l| - 1) && l[..|l| - 1] == Init(l);
    if OpensGroup(Last(l), g) && HasStarted(Init(l), g) {
      var n :| 0 <= n < |Init(l)| && Init(l)[n].Emit? && Init(l)[n].event.GroupStarted? && Init(l)[n].event.gid == g;
    }
  }

  /** A group that is said to start once is announced once. */
  lemma SaidOnce(l: seq<Action>, g: GroupId, opening: Action, closing: Action)
    requires Project(l, OfGroup(g)) == [opening, closing] && !OpensGroup(closing, g)
    ensures OpenedOnce(l, g)
  {
    hide Project;
    forall n, m | 0 <= n < m < |l| ensures !(OpensGroup(l[n], g) && OpensGroup(l[m], g)) {
      if OpensGroup(l[n], g) && OpensGroup(l[m], g) {
        ProjectTwice(l, n, m, OfGroup(g));
      }
    }
  }

  lemma ProjectTwice(l: seq<Action>, n: nat, m: nat, key: Key)
    requires n < m < |l| && KeyOf(l[n]) == key && KeyOf(l[m]) == key
    ensures exists p, q :: 0 <= p < q < |Project(l, key)| && Project(l, key)[p] == l[n] && Project(l, key)[q] == l[m]
  {
    var p, q := |Project(l[..n], key)|, |Project(l[..m], key)|;
    PlaceOf(l, n, key);
    PlaceOf(l, m, key);
    assert l[..m][..n + 1] == l[..n + 1] && l[..n + 1] == l[..n] + [l[n]];
    ProjectSnoc(l[..n], l[n], key);
    ProjectPrefix(l[..m], n + 1, key);
  }

  lemma PlaceOf(l: seq<Action>, n: nat, key: Key)
    requires n < |l| && KeyOf(l[n]) == key
    ensures |Project(l[..n], key)| < |Project(l, key)| && Project(l, key)[|Project(l[..n], key)|] == l[n]
  {
    ProjectSnoc(l[..n], l[n], key);
    assert l[..n] + [l[n]] == l[..n + 1];
    ProjectPrefix(l, n + 1, key);
  }

  /** A started group's own steps start once each with its tag, and no other step does. */
  lemma OwnStarts(cfg: Config, i: nat, st: Progress, l: seq<Action>, g: GroupId, id: nat)
    requires Starts(cfg, i, st) && Linearizes(l, Run(cfg).state.blocks) && DistinctGroups(cfg.entries)
    requires i < |cfg.entries| && EntryTag(cfg.entries[i]) == Some(g)
    ensures TaggedStarts(l, g, id) == if st.next <= id < NextOf(cfg, i, st) then 1 else 0
  {
    hide Run, Starts, NextOf, BlocksOf, DistinctGroups, TaggedStarts, WholeStep, Owned;
    if st.next <= id < NextOf(cfg, i, st) {
      EntryInTrace(cfg, i, st, l, id);
      TaggedStartsProject(l, g, id);
      EntrySteps(cfg, i, st, id);
      RunGraphs.StartsOnce(Project(l, OfStep(id)), id);
      EntryStartTagged(cfg, i, st, Project(l, OfStep(id))[0], id);
      FirstTagged(Project(l, OfStep(id)), g, id);
    } else {
      forall n | 0 <= n < |l| ensures !StartsTagged(l[n], g, id) {
        if StartsTagged(l[n], g, id) {
          var j, sj := TaggedOwner(cfg, l, l[n], g);
          TagsAGroup(cfg.entries[i]);
          SameTagSameEntry(cfg, i, st, j, sj, id);
        }
      }
      NeverTagged(l, g, id);
    }
  }

  lemma TagsAGroup(e: Entry)
    requires EntryTag(e).Some?
    ensures !e.step.Single?
  {
  }

  lemma EntrySteps(cfg: Config, i: nat, st: Progress, id: nat)
    requires i < |cfg.entries| && st.next <= id < NextOf(cfg, i, st)
    ensures WholeStep(Project(Sequential(BlocksOf(cfg, i, st)), OfStep(id)), id)
  {
    hide RunEntry, WholeStep, Moves;
    EntryMoves(cfg, cfg.entries[i], st.next, st.bindings, st.cache);
    var run := RunEntry(cfg, cfg.entries[i], st.next, st.bindings, st.cache);
    MovesSteps(Sequential(run.blocks), st.next, run.next, run.ok);
  }

  lemma EntryStartTagged(cfg: Config, i: nat, st: Progress, a: Action, id: nat)
    requires i < |cfg.entries| && a in Project(Sequential(BlocksOf(cfg, i, st)), OfStep(id)) && IsStart(a, id)
    ensures a.event.group == EntryTag(cfg.entries[i])
  {
    hide BlocksOf, EntryTag;
    ProjectElements(Sequential(BlocksOf(cfg, i, st)), OfStep(id));
    TagInBlocks(cfg, i, st, a);
  }

  // ---------------------------------------------------------------- the record

  lemma SaidView(step: Step, ok: bool)
    requires !step.Single?
    ensures GroupViewOf(SaidOf(step, ok)) ==
      Some(GroupRecord(step.id, seq(|step.tools|, k requires 0 <= k < |step.tools| => step.tools[k].name), step.Consensus?, Some(ok), []))
  {
    var said := SaidOf(step, ok);
    GroupViewSnoc([said[0]], said[1]);
    GroupViewSnoc([], said[0]);
    assert said == [said[0]] + [said[1]] && [said[0]] == [] + [said[0]];
  }

  /**
   A started group's record, on every schedule: its members' names in the order they were given, whether it
   is a consensus, whether it succeeded, and its steps in the order they started, each exactly once.
   */
  lemma GroupIsRecorded(cfg: Config, i: nat, st: Progress, l: seq<Action>)
    requires Starts(cfg, i, st) && Linearizes(l, Run(cfg).state.blocks) && DistinctGroups(cfg.entries)
    requires i < |cfg.entries| && !cfg.entries[i].step.Single?
    ensures var step := cfg.entries[i].step;
      && GroupRecordOf(JournalOf(l), step.id).Some?
      && var r := GroupRecordOf(JournalOf(l), step.id).value;
         && r.gid == step.id && r.consensus == step.Consensus?
         && |r.tools| == |step.tools| && (forall k | 0 <= k < |step.tools| :: r.tools[k] == step.tools[k].name)
         && r.status == Some(GroupSucceeds(cfg, cfg.entries[i], st))
         && r.stepIds == TaggedIds(l, step.id)
         && forall id: nat :: multiset(r.stepIds)[id] == if st.next <= id < NextOf(cfg, i, st) then 1 else 0
  {
    hide Run, Starts, DistinctGroups, GroupSucceeds, SaidOf, NextOf, BlocksOf, JournalOf, Announced, OpenedOnce, GroupRecordOf, TaggedStarts, TaggedIds, HasStarted;
    var e := cfg.entries[i];
    var g := e.step.id;
    var ok := GroupSucceeds(cfg, e, st);
    GroupInTrace(cfg, i, st, l, g);
    if e.step.Parallel? { ParallelSays(cfg, i, st); }
    else if e.step.source.None? { VotersSay(cfg, i, st); }
    else { ReuseSays(cfg, i, st); }
    SaidView(e.step, ok);
    GroupRecordIsView(l, g);
    SaidIsOnce(e.step, ok, l);
    RunAnnounces(cfg, l);
    RecordLists(l, g);
    SaidStarts(e.step, ok, l);
    forall id: nat ensures multiset(GroupRecordOf(JournalOf(l), g).value.stepIds)[id] == if st.next <= id < NextOf(cfg, i, st) then 1 else 0 {
      TaggedCount(l, g, id);
      OwnStarts(cfg, i, st, l, g, id);
    }
  }

  lemma SaidStarts(step: Step, ok: bool, l: seq<Action>)
    requires !step.Single? && Project(l, OfGroup(step.id)) == SaidOf(step, ok)
    ensures HasStarted(l, step.id)
  {
    hide Project;
    ProjectElements(l, OfGroup(step.id));
    var a := SaidOf(step, ok)[0];
    assert a in Project(l, OfGroup(step.id));
    var n :| 0 <= n < |l| && l[n] == a;
  }

  lemma SaidIsOnce(step: Step, ok: bool, l: seq<Action>)
    requires !step.Single? && Project(l, OfGroup(step.id)) == SaidOf(step, ok)
    ensures OpenedOnce(l, step.id)
  {
    var said := SaidOf(step, ok);
    SaidOnce(l, step.id, said[0], said[1]);
  }

  // ---------------------------------------------------------------- what an entry leaves to later ones

  /** A sequential step returned, or the group succeeded. */
  predicate Succeeds(cfg: Config, e: Entry, st: Progress) {
    if e.step.Single? then EndOf(cfg.policy, cfg.world, e.step.tool, e.agent, st.next, st.bindings).Returned?
    else GroupSucceeds(cfg, e, st)
  }

  /** What a successful entry has for its name: its tool's value, or the value the votes were reduced to. */
  function ValueOf(cfg: Config, e: Entry, st: Progress): Option<Value> {
    match e.step
    case Single(tool) =>
      var end := EndOf(cfg.policy, cfg.world, tool, e.agent, st.next, st.bindings);
      if end.Returned? then Some(end.value) else None
    case Parallel(_, _) => None
    case Consensus(_, _, _, strategy, _, _) =>
      if VotesOf(cfg, e, st).None? then None
      else match strategy(DecisionId(e, st), VotesOf(cfg, e, st).value)
        case Agreed(value, _) => Some(value)
        case Disagreed(_) => None
  }

  /** The members' values in the order the tools were given. */
  function MemberValues(cfg: Config, e: Entry, st: Progress): seq<Value>
    requires !e.step.Single? && AllVoted(cfg, e, st)
  {
    seq(|e.step.tools|, k requires 0 <= k < |e.step.tools| => EndOf(cfg.policy, cfg.world, e.step.tools[k], e.agent, st.next + k, st.bindings).value)
  }

  lemma SingleRuns(cfg: Config, e: Entry, st: Progress)
    requires e.step.Single?
    ensures var run := RunEntry(cfg, e, st.next, st.bindings, st.cache);
      && (run.ok <==> Succeeds(cfg, e, st)) && (run.ok ==> run.bound == ValueOf(cfg, e, st))
  {
    hide ToolRun, EndOf;
    OutputIs(cfg.policy, cfg.world, e.step.tool, e.agent, st.next, None, st.bindings, true);
  }

  lemma ParallelRuns(cfg: Config, e: Entry, st: Progress)
    requires e.step.Parallel?
    ensures var run := RunEntry(cfg, e, st.next, st.bindings, st.cache);
      && (run.ok <==> Succeeds(cfg, e, st)) && (run.ok ==> run.cached == Some(MemberValues(cfg, e, st)))
      && run.bound == None && ValueOf(cfg, e, st) == None
  {
    hide MemberRuns, Members, Opened, Closed, AllVoted, AllSucceeded, EndOf;
    MembersVote(cfg, e, st);
    var runs := MemberRuns(cfg, e.step.tools, e.agent, st.next, e.step.id, st.bindings);
    if AllSucceeded(runs) { assert Outputs(runs) == MemberValues(cfg, e, st); }
  }

  lemma DecideSettles(cfg: Config, step: Step, agent: Option<Agent>, votes: seq<Value>, id: nat, b: Bindings)
    requires step.Consensus?
    ensures var d := Decide(cfg, step, agent, votes, id, b);
      d.ok ==> step.strategy(id, votes).Agreed? && Settled(d) == Some(step.strategy(id, votes).value)
  {
    hide ToolRun, Triggers, DecisionOpening, DecisionAgreed, DecisionRefused;
  }

  lemma VotersRun(cfg: Config, e: Entry, st: Progress)
    requires e.step.Consensus? && e.step.source.None?
    ensures var run := RunEntry(cfg, e, st.next, st.bindings, st.cache);
      && (run.ok <==> Succeeds(cfg, e, st)) && (run.ok ==> run.bound == ValueOf(cfg, e, st))
  {
    hide MemberRuns, Members, Opened, Closed, AllVoted, AllSucceeded, EndOf, Decide, RunReuse, ReportsBelow, Settled;
    MembersVote(cfg, e, st);
    var runs := MemberRuns(cfg, e.step.tools, e.agent, st.next, e.step.id, st.bindings);
    if AllSucceeded(runs) {
      var votes := VotesOf(cfg, e, st).value;
      assert Outputs(runs) == votes;
      DecideSucceeds(cfg, e.step, e.agent, votes, DecisionId(e, st), st.bindings);
      DecideSettles(cfg, e.step, e.agent, votes, DecisionId(e, st), st.bindings);
    }
  }

  lemma ReuseRuns(cfg: Config, e: Entry, st: Progress)
    requires e.step.Consensus? && e.step.source.Some?
    ensures var run := RunEntry(cfg, e, st.next, st.bindings, st.cache);
      && (run.ok <==> Succeeds(cfg, e, st)) && (run.ok ==> run.bound == ValueOf(cfg, e, st))
  {
    hide Opened, Closed, EndOf, Decide, RunVoters, ReportsBelow, Settled;
    if VotesOf(cfg, e, st).Some? {
      var votes := VotesOf(cfg, e, st).value;
      DecideSucceeds(cfg, e.step, e.agent, votes, DecisionId(e, st), st.bindings);
      DecideSettles(cfg, e.step, e.agent, votes, DecisionId(e, st), st.bindings);
    }
  }

  /**
   What an entry that was started does to the rest of the run: the run goes past it exactly when it
   succeeded and, where a store is in use, nothing in a sequential step's output is refused by json; then
   its name is bound to its value, and only a parallel block leaves its members' values for a later consensus.
   */
  lemma EntryLeaves(cfg: Config, i: nat, st: Progress)
    requires Starts(cfg, i, st) && i < |cfg.entries|
    ensures var e := cfg.entries[i];
      && (TurnAt(cfg, i, st).GoesOn? <==>
            Succeeds(cfg, e, st) && !(e.step.Single? && cfg.storing && HoldsOpaque(ValueOf(cfg, e, st).value)))
      && (TurnAt(cfg, i, st).GoesOn? ==>
            var st', v := TurnAt(cfg, i, st).state, ValueOf(cfg, e, st);
            && st'.bindings == (if e.asName.Some? && v.Some? then st.bindings[e.asName.value := v.value] else st.bindings)
            && st'.cache == (if e.step.Parallel? then st.cache[e.step.id := MemberValues(cfg, e, st)] else st.cache))
  {
    hide RunEntry, Storable, Arrives, Measure, Finish, ValueOf, Succeeds, MemberValues, HoldsOpaque;
    var e := cfg.entries[i];
    match e.step
    case Single(_) =>
      SingleRuns(cfg, e, st);
      RefusedIff(cfg, i, st);
      SingleValue(cfg, e, st);
    case Parallel(_, _) => ParallelRuns(cfg, e, st);
    case Consensus(_, _, _, _, source, _) => if source.None? { VotersRun(cfg, e, st); } else { ReuseRuns(cfg, e, st); }
  }

  lemma SingleValue(cfg: Config, e: Entry, st: Progress)
    requires e.step.Single?
    ensures var end := EndOf(cfg.policy, cfg.world, e.step.tool, e.agent, st.next, st.bindings);
      (Succeeds(cfg, e, st) <==> end.Returned?) && (end.Returned? ==> ValueOf(cfg, e, st) == Some(end.value))
  {
  }
}
