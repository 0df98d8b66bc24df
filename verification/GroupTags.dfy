/**
 The group every step is tagged with.  In any run of a workflow with distinct group ids, a group's steps
 have consecutive ids, so the execution graph's leaves are the steps 1, 2, ..., n.
 */
module GroupTags {
  import opened Wrappers
  import opened Values
  import opened Runtime
  import opened Merges
  import opened Blocks
  import opened Measures
  import opened Workers
  import opened WorkerLaws
  import opened Plans
  import opened GroupLaws
  import opened StepLaws
  import opened RunLaws
  import opened Outcomes
  import opened Journals
  import opened Jobs
  import opened GateLaws
  import opened ExecutionGraphs

  // ---------------------------------------------------------------- what an entry's events are tagged with

  predicate IsTagged(a: Action, tag: Option<GroupId>) {
    a.Emit? ==>
      && (IsStepEvent(a.event) ==> a.event.group == tag)
      && (a.event.GroupStarted? || a.event.GroupFinished? ==> tag == Some(a.event.gid))
  }

  predicate AllTagged(l: seq<Action>, tag: Option<GroupId>) {
    forall i | 0 <= i < |l| :: IsTagged(l[i], tag)
  }

  lemma TaggedConcat(l: seq<Action>, m: seq<Action>, tag: Option<GroupId>)
    requires AllTagged(l, tag) && AllTagged(m, tag)
    ensures AllTagged(l + m, tag)
  {
    hide IsTagged;
  }

  lemma {:induction false} AttemptsTagged(tool: Tool, id: nat, group: Option<GroupId>, b: Bindings, from: nat)
    ensures AllTagged(Attempts(tool, id, group, b, from).0, group)
    decreases if from < tool.retries then tool.retries - from else 0
  {
    if Retried(tool, id, b, from) {
      AttemptsTagged(tool, id, group, b, from + 1);
      var retry := Emit(RetryAttempted(id, tool.name, from + 1, tool.execute(id, b, from).exn.message, group));
      TaggedConcat([Execute(id, from), retry], Attempts(tool, id, group, b, from + 1).0, group);
    }
  }

  lemma EndsTagged(policy: Policy, world: World, tool: Tool, agent: Option<Agent>, id: nat, group: Option<GroupId>, b: Bindings, last: Attempt, sink: bool)
    ensures AllTagged(Opening(tool, id, group), group) && AllTagged(Gates(policy, world, tool, agent, id, group).0, group)
    ensures AllTagged(Ending(tool, id, group, b, last, sink), group)
  {
    hide ErrorText, CapabilityDenial, ApprovalDenial, LacksCapability;
  }

  lemma ToolRunTagged(policy: Policy, world: World, tool: Tool, agent: Option<Agent>, id: nat, group: Option<GroupId>, b: Bindings, sink: bool)
    ensures AllTagged(ToolRun(policy, world, tool, agent, id, group, b, sink).actions, group)
  {
    hide AllTagged, Opening, Ending, Gates;
    var (asked, refusal) := Gates(policy, world, tool, agent, id, group);
    var (body, last) := Body(policy, world, tool, agent, id, group, b);
    EndsTagged(policy, world, tool, agent, id, group, b, last, sink);
    if refusal.None? {
      AttemptsTagged(tool, id, group, b, 0);
      TaggedConcat(asked, Attempts(tool, id, group, b, 0).0, group);
    }
    TaggedConcat(Opening(tool, id, group), body, group);
    TaggedConcat(Opening(tool, id, group) + body, Ending(tool, id, group, b, last, sink), group);
  }

  lemma DecisionTagged(name: string, id: nat, group: GroupId, error: string, value: Value, metadata: Option<map<string, Meta>>)
    ensures AllTagged(DecisionOpening(name, id, group) + DecisionRefused(name, id, group, error), Some(group))
    ensures AllTagged(DecisionOpening(name, id, group) + DecisionAgreed(name, id, group, value, metadata), Some(group))
  {
  }

  lemma DecideTagged(cfg: Config, step: Step, agent: Option<Agent>, votes: seq<Value>, id: nat, b: Bindings)
    requires step.Consensus?
    ensures AllTagged(Decide(cfg, step, agent, votes, id, b).actions, Some(step.id))
  {
    hide AllTagged, ToolRun, DecisionOpening, DecisionAgreed, DecisionRefused, StrategyError;
    match step.strategy(id, votes)
    case Disagreed(e) => DecisionTagged(step.name, id, step.id, StrategyError(e), Null, None);
    case Agreed(value, metadata) =>
      DecisionTagged(step.name, id, step.id, "", value, metadata);
      if Triggers(step.fallback, metadata) {
        var tool := step.fallback.value.tool;
        ToolRunTagged(cfg.policy, cfg.world, tool, agent, id + 1, Some(step.id), b, false);
        TaggedConcat(DecisionOpening(step.name, id, step.id) + DecisionAgreed(step.name, id, step.id, value, metadata),
                     ToolRun(cfg.policy, cfg.world, tool, agent, id + 1, Some(step.id), b, false).actions, Some(step.id));
      }
  }

  lemma {:induction false} FlattenTagged(members: seq<seq<Action>>, tag: Option<GroupId>)
    requires forall k | 0 <= k < |members| :: AllTagged(members[k], tag)
    ensures AllTagged(Flatten(members), tag)
    decreases |members|
  {
    hide AllTagged;
    if members == [] {
      NothingTagged(tag);
    } else {
      FlattenTagged(Init(members), tag);
      TaggedConcat(Flatten(Init(members)), Last(members), tag);
    }
  }

  lemma NothingTagged(tag: Option<GroupId>)
    ensures AllTagged([], tag)
  {
  }

  lemma MembersTagged(cfg: Config, tools: seq<Tool>, agent: Option<Agent>, first: nat, group: GroupId, b: Bindings)
    ensures AllTagged(InOrder(Fork(Members(MemberRuns(cfg, tools, agent, first, group, b)))), Some(group))
  {
    hide AllTagged, ToolRun;
    var members := Members(MemberRuns(cfg, tools, agent, first, group, b));
    forall k | 0 <= k < |members| ensures AllTagged(members[k], Some(group)) {
      ToolRunTagged(cfg.policy, cfg.world, tools[k], agent, first + k, Some(group), b, true);
    }
    FlattenTagged(members, Some(group));
  }

  predicate GroupOpens(l: seq<Action>, g: GroupId) {
    l != [] && l[0].Emit? && l[0].event.GroupStarted? && l[0].event.gid == g
  }

  lemma BracketsTagged(step: Step, ok: bool)
    requires !step.Single?
    ensures AllTagged(InOrder(Opened(step)), Some(step.id)) && AllTagged(InOrder(Closed(step, ok)), Some(step.id))
    ensures GroupOpens(InOrder(Opened(step)), step.id)
  {
  }

  lemma ThreeTagged(a: Block, b: Block, c: Block, g: GroupId)
    requires AllTagged(InOrder(a), Some(g)) && AllTagged(InOrder(b), Some(g)) && AllTagged(InOrder(c), Some(g)) && GroupOpens(InOrder(a), g)
    ensures AllTagged(Sequential([a, b, c]), Some(g)) && GroupOpens(Sequential([a, b, c]), g)
  {
    hide AllTagged, InOrder;
    SequentialThree(a, b, c);
    TaggedConcat(InOrder(a), InOrder(b), Some(g));
    TaggedConcat(InOrder(a) + InOrder(b), InOrder(c), Some(g));
  }

  lemma FourTagged(a: Block, b: Block, c: Block, d: Block, g: GroupId)
    requires AllTagged(InOrder(a), Some(g)) && AllTagged(InOrder(b), Some(g)) && AllTagged(InOrder(c), Some(g)) && AllTagged(InOrder(d), Some(g))
    requires GroupOpens(InOrder(a), g)
    ensures AllTagged(Sequential([a, b, c, d]), Some(g)) && GroupOpens(Sequential([a, b, c, d]), g)
  {
    hide AllTagged, InOrder;
    SequentialFour(a, b, c, d);
    TaggedConcat(InOrder(a), InOrder(b), Some(g));
    TaggedConcat(InOrder(a) + InOrder(b), InOrder(c), Some(g));
    TaggedConcat(InOrder(a) + InOrder(b) + InOrder(c), InOrder(d), Some(g));
  }

  /** All of an entry's step events carry its own tag, and a group's first event opens the group. */
  lemma EntryTagged(cfg: Config, e: Entry, next: nat, b: Bindings, cache: map<GroupId, seq<Value>>)
    ensures var l := Sequential(RunEntry(cfg, e, next, b, cache).blocks);
      AllTagged(l, EntryTag(e)) && (!e.step.Single? ==> GroupOpens(l, e.step.id))
  {
    hide AllTagged, ToolRun, MemberRuns, Members, Opened, Closed, Decide, GroupOpens, DecideNothing;
    var ok := RunEntry(cfg, e, next, b, cache).ok;
    if e.step.Single? {
      ToolRunTagged(cfg.policy, cfg.world, e.step.tool, e.agent, next, None, b, true);
      SequentialOne(Solo(ToolRun(cfg.policy, cfg.world, e.step.tool, e.agent, next, None, b, true).actions));
    } else {
      BracketsTagged(e.step, ok);
      var runs := MemberRuns(cfg, e.step.tools, e.agent, next, e.step.id, b);
      MembersTagged(cfg, e.step.tools, e.agent, next, e.step.id, b);
      if e.step.Parallel? {
        ThreeTagged(Opened(e.step), Fork(Members(runs)), Closed(e.step, ok), e.step.id);
      } else if e.step.source.None? {
        VotersTagged(cfg, e, next, b);
      } else {
        ReuseTagged(cfg, e, next, b, cache);
      }
    }
  }

  lemma VotersTagged(cfg: Config, e: Entry, next: nat, b: Bindings)
    requires e.step.Consensus? && e.step.source.None?
    ensures var l := Sequential(RunVoters(cfg, e, next, b).blocks); AllTagged(l, Some(e.step.id)) && GroupOpens(l, e.step.id)
  {
    hide AllTagged, MemberRuns, Members, Opened, Closed, Decide, GroupOpens;
    var runs := MemberRuns(cfg, e.step.tools, e.agent, next, e.step.id, b);
    MembersTagged(cfg, e.step.tools, e.agent, next, e.step.id, b);
    if AllSucceeded(runs) {
      var d := Decide(cfg, e.step, e.agent, Outputs(runs), next + |runs|, b);
      DecideTagged(cfg, e.step, e.agent, Outputs(runs), next + |runs|, b);
      BracketsTagged(e.step, d.ok);
      FourTagged(Opened(e.step), Fork(Members(runs)), Solo(d.actions), Closed(e.step, d.ok), e.step.id);
    } else {
      BracketsTagged(e.step, false);
      ThreeTagged(Opened(e.step), Fork(Members(runs)), Closed(e.step, false), e.step.id);
    }
  }

  lemma ReuseTagged(cfg: Config, e: Entry, next: nat, b: Bindings, cache: map<GroupId, seq<Value>>)
    requires e.step.Consensus? && e.step.source.Some?
    ensures var l := Sequential(RunReuse(cfg, e, next, b, cache).blocks); AllTagged(l, Some(e.step.id)) && GroupOpens(l, e.step.id)
  {
    hide AllTagged, Opened, Closed, Decide, GroupOpens, DecisionOpening, DecisionRefused, NothingToReuse;
    var d := if e.step.source.value in cache then Decide(cfg, e.step, e.agent, cache[e.step.source.value], next, b)
             else DecideNothing(e.step, next);
    if e.step.source.value in cache {
      DecideTagged(cfg, e.step, e.agent, cache[e.step.source.value], next, b);
    } else {
      DecisionTagged(e.step.name, next, e.step.id, NothingToReuse(e.step.source.value), Null, None);
    }
    BracketsTagged(e.step, d.ok);
    ThreeTagged(Opened(e.step), Solo(d.actions), Closed(e.step, d.ok), e.step.id);
  }

  // ---------------------------------------------------------------- tags over a run

  /** What step id is tagged with. */
  function TagOf(l: seq<Action>, id: nat): Option<GroupId> {
    var mine := Project(l, OfStep(id));
    if mine != [] && mine[0].Emit? && IsStepEvent(mine[0].event) then mine[0].event.group else None
  }

  ghost predicate DistinctGroups(entries: seq<Entry>) {
    forall i, j | 0 <= i < j < |entries| && !entries[i].step.Single? && !entries[j].step.Single? ::
      entries[i].step.id != entries[j].step.id
  }

  /** Some of the first i entries is the group g. */
  predicate IsGroup(entries: seq<Entry>, i: nat, g: GroupId) {
    exists j :: 0 <= j < i && j < |entries| && !entries[j].step.Single? && entries[j].step.id == g
  }

  predicate HasStarted(l: seq<Action>, g: GroupId) {
    exists n :: 0 <= n < |l| && l[n].Emit? && l[n].event.GroupStarted? && l[n].event.gid == g
  }

  predicate Known(l: seq<Action>, entries: seq<Entry>, i: nat, id: nat) {
    TagOf(l, id).Some? ==> IsGroup(entries, i, TagOf(l, id).value) && HasStarted(l, TagOf(l, id).value)
  }

  predicate Joined(l: seq<Action>, a: nat, b: nat, c: nat) {
    TagOf(l, a).Some? && TagOf(l, a) == TagOf(l, c) ==> TagOf(l, b) == TagOf(l, a)
  }

  /** The tags of steps 1..next - 1: groups of the first i entries, each group's steps next to each other. */
  ghost predicate Tags(l: seq<Action>, entries: seq<Entry>, i: nat, next: nat) {
    && (forall id: nat | 1 <= id < next :: Known(l, entries, i, id))
    && (forall a: nat, b: nat, c: nat | 1 <= a < b < c < next :: Joined(l, a, b, c))
  }

  lemma TagAppended(l: seq<Action>, m: seq<Action>, from: nat, mid: nat, to: nat, tag: Option<GroupId>, id: nat)
    requires StepsIn(l, from, mid) && StepsIn(m, mid, to) && AllTagged(m, tag) && from <= id < to
    ensures TagOf(l + m, id) == if id < mid then TagOf(l, id) else tag
  {
    ProjectConcat(l, m, OfStep(id));
    var p, q := Project(l, OfStep(id)), Project(m, OfStep(id));
    assert p + [] == p && [] + q == q;
    if id >= mid {
      assert WholeStep(q, id);
      WholeStarts(q, id);
      ProjectElements(m, OfStep(id));
      assert q[0] in m;
    }
  }

  lemma WholeStarts(mine: seq<Action>, id: nat)
    requires WholeStep(mine, id)
    ensures mine != [] && IsStart(mine[0], id)
  {
  }

  lemma StartedStays(l: seq<Action>, m: seq<Action>, g: GroupId)
    requires HasStarted(l, g) || HasStarted(m, g)
    ensures HasStarted(l + m, g)
  {
    if HasStarted(l, g) {
      var n :| 0 <= n < |l| && l[n].Emit? && l[n].event.GroupStarted? && l[n].event.gid == g;
      assert (l + m)[n] == l[n];
    } else {
      var n :| 0 <= n < |m| && m[n].Emit? && m[n].event.GroupStarted? && m[n].event.gid == g;
      assert (l + m)[|l| + n] == m[n];
    }
  }

  /** An entry's own steps carry its tag; the steps before it keep theirs. */
  predicate TagAfter(l: seq<Action>, m: seq<Action>, e: Entry, next: nat, id: nat) {
    TagOf(l + m, id) == if id < next then TagOf(l, id) else EntryTag(e)
  }

  /** Entry i's steps join the tags. */
  lemma TagsConcat(l: seq<Action>, m: seq<Action>, entries: seq<Entry>, i: nat, next: nat, to: nat)
    requires StepsIn(l, 1, next) && StepsIn(m, next, to) && Tags(l, entries, i, next) && DistinctGroups(entries) && i < |entries|
    requires AllTagged(m, EntryTag(entries[i])) && (!entries[i].step.Single? ==> GroupOpens(m, entries[i].step.id))
    ensures Tags(l + m, entries, i + 1, to)
  {
    hide StepsIn, AllTagged;
    var tag := EntryTag(entries[i]);
    var later := i + 1;
    forall id: nat | 1 <= id < to ensures TagAfter(l, m, entries[i], next, id) { TagAppended(l, m, 1, next, to, tag, id); }
    forall id: nat | 1 <= id < to ensures Known(l + m, entries, later, id) {
      assert TagAfter(l, m, entries[i], next, id);
      KnownStays(l, m, entries, i, next, id);
    }
    forall a: nat, b: nat, c: nat | 1 <= a < b < c < to ensures Joined(l + m, a, b, c) {
      JoinedStays(l, m, entries, i, next, a, b, c);
    }
  }

  lemma KnownStays(l: seq<Action>, m: seq<Action>, entries: seq<Entry>, i: nat, next: nat, id: nat)
    requires Tags(l, entries, i, next) && i < |entries| && id >= 1
    requires TagOf(l + m, id) == if id < next then TagOf(l, id) else EntryTag(entries[i])
    requires !entries[i].step.Single? ==> GroupOpens(m, entries[i].step.id)
    ensures Known(l + m, entries, i + 1, id)
  {
    hide TagOf, HasStarted;
    if id < next {
      assert Known(l, entries, i, id);
      if TagOf(l, id).Some? {
        IsGroupLater(entries, i, TagOf(l, id).value);
        StartedStays(l, m, TagOf(l, id).value);
      }
    } else if !entries[i].step.Single? {
      OpensStarts(m, entries[i].step.id);
      StartedStays(l, m, entries[i].step.id);
      assert IsGroup(entries, i + 1, entries[i].step.id);
    }
  }

  lemma OpensStarts(m: seq<Action>, g: GroupId)
    requires GroupOpens(m, g)
    ensures HasStarted(m, g)
  {
  }

  lemma IsGroupLater(entries: seq<Entry>, i: nat, g: GroupId)
    requires IsGroup(entries, i, g)
    ensures IsGroup(entries, i + 1, g)
  {
    var j :| 0 <= j < i && j < |entries| && !entries[j].step.Single? && entries[j].step.id == g;
  }

  lemma JoinedStays(l: seq<Action>, m: seq<Action>, entries: seq<Entry>, i: nat, next: nat, a: nat, b: nat, c: nat)
    requires Tags(l, entries, i, next) && DistinctGroups(entries) && i < |entries| && 1 <= a < b < c
    requires TagAfter(l, m, entries[i], next, a) && TagAfter(l, m, entries[i], next, b) && TagAfter(l, m, entries[i], next, c)
    ensures Joined(l + m, a, b, c)
  {
    hide TagOf;
    if c < next {
      assert Joined(l, a, b, c);
    } else if a < next {
      assert Known(l, entries, i, a);
      if TagOf(l, a).Some? && TagOf(l, a) == EntryTag(entries[i]) { NotTwice(entries, i, TagOf(l, a).value); }
    }
  }

  lemma NotTwice(entries: seq<Entry>, i: nat, g: GroupId)
    requires DistinctGroups(entries) && i < |entries| && EntryTag(entries[i]) == Some(g)
    ensures !IsGroup(entries, i, g)
  {
  }

  /** A whole step of no group joins them too. */
  lemma TagsQuiet(l: seq<Action>, m: seq<Action>, entries: seq<Entry>, i: nat, next: nat, to: nat)
    requires StepsIn(l, 1, next) && StepsIn(m, next, to) && Tags(l, entries, i, next) && AllTagged(m, None)
    ensures Tags(l + m, entries, i, to)
  {
    hide StepsIn, AllTagged;
    forall id: nat | 1 <= id < to ensures TagOf(l + m, id) == (if id < next then TagOf(l, id) else None) && Known(l + m, entries, i, id) {
      TagAppended(l, m, 1, next, to, None, id);
      if id < next && TagOf(l, id).Some? {
        assert Known(l, entries, i, id);
        StartedStays(l, m, TagOf(l, id).value);
      }
    }
    forall a: nat, b: nat, c: nat | 1 <= a < b < c < to ensures Joined(l + m, a, b, c) {
      if c < next { assert Joined(l, a, b, c); }
    }
  }

  lemma TagsMore(l: seq<Action>, entries: seq<Entry>, i: nat, next: nat)
    requires Tags(l, entries, i, next)
    ensures Tags(l, entries, i + 1, next)
  {
    hide TagOf;
    var later := i + 1;
    forall id: nat | 1 <= id < next ensures Known(l, entries, later, id) {
      assert Known(l, entries, i, id);
      if TagOf(l, id).Some? { IsGroupLater(entries, i, TagOf(l, id).value); }
    }
    forall a: nat, b: nat, c: nat | 1 <= a < b < c < next ensures Joined(l, a, b, c) {
    }
  }

  // ---------------------------------------------------------------- the turns of a run

  ghost predicate RunTags(st: Progress, entries: seq<Entry>, i: nat) {
    StepsIn(Sequential(st.blocks), 1, st.next) && Tags(Sequential(st.blocks), entries, i, st.next)
  }

  lemma SoloTags(blocks: seq<Block>, actions: seq<Action>, entries: seq<Entry>, i: nat, next: nat, to: nat)
    requires StepsIn(Sequential(blocks), 1, next) && Tags(Sequential(blocks), entries, i, next)
    requires StepsIn(actions, next, to) && AllTagged(actions, None)
    ensures StepsIn(Sequential(blocks + [Solo(actions)]), 1, to) && Tags(Sequential(blocks + [Solo(actions)]), entries, i, to)
  {
    hide StepsIn, Tags, AllTagged;
    SequentialSnoc(blocks, Solo(actions));
    StepsConcat(Sequential(blocks), actions, 1, next, to);
    TagsQuiet(Sequential(blocks), actions, entries, i, next, to);
  }

  lemma FinishTags(st: Progress, success: bool, entries: seq<Entry>, i: nat)
    requires RunTags(st, entries, i)
    ensures RunTags(Finish(st, success).state, entries, i)
  {
    hide StepsIn, Tags;
    QuietEvent(WorkflowFinished(success), st.next);
    SoloTags(st.blocks, [Emit(WorkflowFinished(success))], entries, i, st.next, st.next);
  }

  lemma QuietEvent(e: Event, n: nat)
    requires !IsStepEvent(e) && !e.GroupStarted? && !e.GroupFinished?
    ensures StepsIn([Emit(e)], n, n) && AllTagged([Emit(e)], None)
  {
    StepsNone([Emit(e)], n);
  }

  lemma QuietRecord(a: Action, n: nat)
    requires a.Record?
    ensures StepsIn([a], n, n) && AllTagged([a], None)
  {
    StepsNone([a], n);
  }

  lemma ReplayTags(st: Progress, e: Entry, saved: Saved, entries: seq<Entry>, i: nat)
    requires RunTags(st, entries, i)
    ensures RunTags(Replay(st, e, saved), entries, i)
  {
    hide StepsIn, Tags, Whole;
    var actions := ReplayActions(st.next, saved);
    ReplayWhole(st.next, saved);
    StepsOne(actions, st.next, true);
    SoloTags(st.blocks, actions, entries, i, st.next, st.next + 1);
  }

  lemma AdvanceTags(cfg: Config, st: Progress, i: nat)
    requires RunTags(st, cfg.entries, i) && DistinctGroups(cfg.entries) && i < |cfg.entries|
    ensures RunTags(Advance(st, cfg.entries[i], RunEntry(cfg, cfg.entries[i], st.next, st.bindings, st.cache)), cfg.entries, i + 1)
  {
    hide StepsIn, Tags, RunEntry, AllTagged, GroupOpens, DistinctGroups, Moves;
    var e := cfg.entries[i];
    var run := RunEntry(cfg, e, st.next, st.bindings, st.cache);
    EntryTagged(cfg, e, st.next, st.bindings, st.cache);
    EntryMoves(cfg, e, st.next, st.bindings, st.cache);
    MovesSteps(Sequential(run.blocks), st.next, run.next, run.ok);
    SequentialConcat(st.blocks, run.blocks);
    StepsConcat(Sequential(st.blocks), Sequential(run.blocks), 1, st.next, run.next);
    TagsConcat(Sequential(st.blocks), Sequential(run.blocks), cfg.entries, i, st.next, run.next);
  }

  lemma TurnTags(cfg: Config, i: nat, st: Progress)
    requires RunTags(st, cfg.entries, i) && DistinctGroups(cfg.entries) && i < |cfg.entries|
    ensures match TurnAt(cfg, i, st)
      case GoesOn(st') => RunTags(st', cfg.entries, i + 1)
      case Stops(r) => RunTags(r.state, cfg.entries, i + 1)
  {
    hide RunTags, RunEntry, Storable, Replay, Finish, Advance, DistinctGroups;
    var e := cfg.entries[i];
    RunTagsMore(st, cfg.entries, i);
    FinishTags(st, false, cfg.entries, i + 1);
    if Replays(cfg, i) { ReplayTags(st, e, cfg.checkpoint[i], cfg.entries, i + 1); }
    var run := RunEntry(cfg, e, st.next, st.bindings, st.cache);
    var st1 := Advance(st, e, run);
    AdvanceTags(cfg, st, i);
    FinishTags(st1, false, cfg.entries, i + 1);
    if e.step.Single? && run.bound.Some? { RecordTags(st1, Record(i, e.step.tool.name, run.bound.value), cfg.entries, i + 1); }
  }

  lemma RunTagsMore(st: Progress, entries: seq<Entry>, i: nat)
    requires RunTags(st, entries, i)
    ensures RunTags(st, entries, i + 1)
  {
    TagsMore(Sequential(st.blocks), entries, i, st.next);
  }

  lemma RecordTags(st: Progress, a: Action, entries: seq<Entry>, i: nat)
    requires RunTags(st, entries, i) && a.Record?
    ensures RunTags(st.(blocks := st.blocks + [Solo([a])]), entries, i)
  {
    hide StepsIn, Tags;
    QuietRecord(a, st.next);
    SoloTags(st.blocks, [a], entries, i, st.next, st.next);
  }

  lemma StartTags(entries: seq<Entry>)
    ensures RunTags(START, entries, 0)
  {
    SequentialOne(Solo([Emit(WorkflowStarted)]));
    QuietEvent(WorkflowStarted, 1);
  }

  lemma {:induction false} ArrivesTagged(cfg: Config, i: nat, st: Progress)
    requires Arrives(cfg, i, st) && DistinctGroups(cfg.entries)
    ensures RunTags(st, cfg.entries, i)
    decreases i
  {
    hide RunTags, TurnAt, Arrives, DistinctGroups;
    ArrivesWithin(cfg, i, st);
    if i == 0 {
      ArrivesAtStart(cfg, st);
      StartTags(cfg.entries);
    } else {
      var before := ArrivesBefore(cfg, i, st);
      ArrivesTagged(cfg, i - 1, before);
      TurnTags(cfg, i - 1, before);
    }
  }

  /** In every run of a workflow with distinct groups, each group's steps are consecutive. */
  lemma RunIsTagged(cfg: Config) returns (i: nat)
    requires DistinctGroups(cfg.entries)
    ensures RunTags(Run(cfg).state, cfg.entries, i)
  {
    hide RunTags, TurnAt, Finish, Run, DistinctGroups;
    var k, last := RunEnds(cfg);
    ArrivesTagged(cfg, k, last);
    if k == |cfg.entries| {
      FinishTags(last, true, cfg.entries, k);
      i := k;
    } else {
      TurnTags(cfg, k, last);
      i := k + 1;
    }
  }
}
