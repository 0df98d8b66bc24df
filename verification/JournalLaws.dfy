/**
 The journal's handlers look up the record a StepStarted created and the group a GroupStarted created.
 In every run, under every schedule, what they look up is there: no handler ever raises KeyError.
 */
module JournalLaws {
  import opened Wrappers
  import opened Values
  import opened Runtime
  import opened Merges
  import opened Blocks
  import opened Workers
  import opened Plans
  import opened GroupLaws
  import opened StepLaws
  import opened RunLaws
  import opened Outcomes
  import opened Journals
  import opened Jobs
  import opened GateLaws
  import opened GroupTags
  import opened RunGraphs

  /** The group whose record an action's handler looks up. */
  function Needs(a: Action): Option<GroupId> {
    if !a.Emit? then None
    else if a.event.StepStarted? then a.event.group
    else if a.event.GroupFinished? then Some(a.event.gid)
    else None
  }

  predicate AnnouncedAt(l: seq<Action>, n: nat)
    requires n < |l|
  {
    Needs(l[n]).Some? ==> HasStarted(l[..n], Needs(l[n]).value)
  }

  /** Every group is started before anything of it. */
  predicate Announced(l: seq<Action>) {
    forall n | 0 <= n < |l| :: AnnouncedAt(l, n)
  }

  lemma AnnouncedConcat(l: seq<Action>, m: seq<Action>)
    requires Announced(l) && Announced(m)
    ensures Announced(l + m)
  {
    hide HasStarted, Needs;
    forall n | 0 <= n < |l + m| ensures AnnouncedAt(l + m, n) {
      if n < |l| {
        assert AnnouncedAt(l, n) && (l + m)[..n] == l[..n];
      } else {
        assert AnnouncedAt(m, n - |l|) && (l + m)[..n] == l + m[..n - |l|];
        if Needs(m[n - |l|]).Some? { StartedStays(l, m[..n - |l|], Needs(m[n - |l|]).value); }
      }
    }
  }

  /** A group's events, the one that starts it first. */
  lemma TaggedIsAnnounced(m: seq<Action>, tag: Option<GroupId>)
    requires AllTagged(m, tag) && (tag.Some? ==> GroupOpens(m, tag.value))
    ensures Announced(m)
  {
    forall n | 0 <= n < |m| ensures AnnouncedAt(m, n) {
      assert IsTagged(m[n], tag);
      if n > 0 && Needs(m[n]).Some? {
        assert m[..n][0] == m[0];
        OpensStarts(m[..n], tag.value);
      }
    }
  }

  // ---------------------------------------------------------------- schedules

  /** Every schedule of the blocks announces its groups. */
  ghost predicate Announces(blocks: seq<Block>) {
    forall l | Realizes(l, blocks) :: Announced(l)
  }

  lemma {:induction false} LinearizesSplits(l: seq<Action>, blocks: seq<Block>, more: seq<Block>)
    returns (before: seq<Action>, during: seq<Action>)
    requires Linearizes(l, blocks + more)
    ensures l == before + during && Linearizes(before, blocks) && Linearizes(during, more)
    decreases |more|
  {
    hide Performs;
    if more == [] {
      assert blocks + more == blocks && l + [] == l;
      before, during := l, [];
    } else {
      var front, tail := LinearizesEnds(l, blocks + more);
      assert Init(blocks + more) == blocks + Init(more) && Last(blocks + more) == Last(more);
      var rest;
      before, rest := LinearizesSplits(front, blocks, Init(more));
      LinearizesSnoc(rest, Init(more), tail, Last(more));
      assert Init(more) + [Last(more)] == more;
      Associates(before, rest, tail);
      during := rest + tail;
    }
  }

  lemma AnnouncesConcat(blocks: seq<Block>, more: seq<Block>)
    requires Announces(blocks) && Announces(more)
    ensures Announces(blocks + more)
  {
    hide Announced;
    forall l | Realizes(l, blocks + more) ensures Announced(l) {
      var before, during := LinearizesSplits(l, blocks, more);
      assert Realizes(before, blocks) && Realizes(during, more);
      AnnouncedConcat(before, during);
    }
  }

  lemma SoloLinearizes(l: seq<Action>, actions: seq<Action>)
    requires Linearizes(l, [Solo(actions)])
    ensures l == actions
  {
    var before, during := LinearizesEnds(l, [Solo(actions)]);
    assert Init([Solo(actions)]) == [];
    assert [] + during == during;
  }

  lemma QuietAnnounces(actions: seq<Action>)
    requires AllTagged(actions, None)
    ensures Announces([Solo(actions)])
  {
    hide AllTagged, Announced;
    forall l | Realizes(l, [Solo(actions)]) ensures Announced(l) {
      SoloLinearizes(l, actions);
      TaggedIsAnnounced(l, None);
    }
  }

  /** What a schedule performs, whatever the order. */
  lemma SameElements(l: seq<Action>, blocks: seq<Block>, a: Action)
    requires Linearizes(l, blocks) && AllSeparate(blocks)
    ensures a in l <==> a in Sequential(blocks)
  {
    hide AllSeparate;
    LinearizationProjects(l, blocks, KeyOf(a));
    ProjectElements(l, KeyOf(a));
    ProjectElements(Sequential(blocks), KeyOf(a));
  }

  lemma ScheduleKeepsTag(l: seq<Action>, blocks: seq<Block>, tag: Option<GroupId>)
    requires Linearizes(l, blocks) && AllSeparate(blocks) && AllTagged(Sequential(blocks), tag)
    ensures AllTagged(l, tag)
  {
    hide AllSeparate, IsTagged;
    forall i | 0 <= i < |l| ensures IsTagged(l[i], tag) {
      SameElements(l, blocks, l[i]);
      assert l[i] in Sequential(blocks);
    }
  }

  lemma OpeningFirst(l: seq<Action>, step: Step, rest: seq<Block>)
    requires !step.Single? && Linearizes(l, [Opened(step)] + rest)
    ensures GroupOpens(l, step.id)
  {
    var before, during := LinearizesSplits(l, [Opened(step)], rest);
    SoloLinearizes(before, Opened(step).actions);
    assert l[0] == before[0];
  }

  lemma GroupBegins(cfg: Config, e: Entry, next: nat, b: Bindings, cache: map<GroupId, seq<Value>>)
    requires !e.step.Single?
    ensures var blocks := RunEntry(cfg, e, next, b, cache).blocks; blocks != [] && blocks == [Opened(e.step)] + blocks[1..]
  {
    hide Opened, Closed, MemberRuns, Members, Decide, DecideNothing;
  }

  /** However an entry's threads interleave, its group is announced first. */
  lemma EntryAnnounces(cfg: Config, e: Entry, next: nat, b: Bindings, cache: map<GroupId, seq<Value>>)
    ensures Announces(RunEntry(cfg, e, next, b, cache).blocks)
  {
    hide RunEntry, AllSeparate, AllTagged, GroupOpens, Announced;
    var blocks := RunEntry(cfg, e, next, b, cache).blocks;
    EntrySeparate(cfg, e, next, b, cache);
    EntryTagged(cfg, e, next, b, cache);
    if !e.step.Single? { GroupBegins(cfg, e, next, b, cache); }
    forall l | Realizes(l, blocks) ensures Announced(l) {
      ScheduleKeepsTag(l, blocks, EntryTag(e));
      if !e.step.Single? { OpeningFirst(l, e.step, blocks[1..]); }
      TaggedIsAnnounced(l, EntryTag(e));
    }
  }

  // ---------------------------------------------------------------- the turns of a run

  lemma AppendQuiet(blocks: seq<Block>, actions: seq<Action>)
    requires Announces(blocks) && AllTagged(actions, None)
    ensures Announces(blocks + [Solo(actions)])
  {
    hide Announces, AllTagged;
    QuietAnnounces(actions);
    AnnouncesConcat(blocks, [Solo(actions)]);
  }

  lemma FinishAnnounces(st: Progress, success: bool)
    requires Announces(st.blocks)
    ensures Announces(Finish(st, success).state.blocks)
  {
    hide Announces;
    AppendQuiet(st.blocks, [Emit(WorkflowFinished(success))]);
  }

  lemma ReplayAnnounces(st: Progress, e: Entry, saved: Saved)
    requires Announces(st.blocks)
    ensures Announces(Replay(st, e, saved).blocks)
  {
    hide Announces;
    AppendQuiet(st.blocks, ReplayActions(st.next, saved));
  }

  lemma AdvanceAnnounces(cfg: Config, st: Progress, e: Entry)
    requires Announces(st.blocks)
    ensures Announces(Advance(st, e, RunEntry(cfg, e, st.next, st.bindings, st.cache)).blocks)
  {
    hide Announces, RunEntry;
    EntryAnnounces(cfg, e, st.next, st.bindings, st.cache);
    AnnouncesConcat(st.blocks, RunEntry(cfg, e, st.next, st.bindings, st.cache).blocks);
  }

  lemma TurnAnnounces(cfg: Config, i: nat, st: Progress)
    requires i < |cfg.entries| && Announces(st.blocks)
    ensures match TurnAt(cfg, i, st)
      case GoesOn(st') => Announces(st'.blocks)
      case Stops(r) => Announces(r.state.blocks)
  {
    hide Announces, RunEntry, Storable, Replay, Finish, Advance;
    var e := cfg.entries[i];
    FinishAnnounces(st, false);
    if Replays(cfg, i) { ReplayAnnounces(st, e, cfg.checkpoint[i]); }
    var run := RunEntry(cfg, e, st.next, st.bindings, st.cache);
    var st1 := Advance(st, e, run);
    AdvanceAnnounces(cfg, st, e);
    FinishAnnounces(st1, false);
    if e.step.Single? && run.bound.Some? {
      QuietRecord(Record(i, e.step.tool.name, run.bound.value), st1.next);
      AppendQuiet(st1.blocks, [Record(i, e.step.tool.name, run.bound.value)]);
    }
  }

  lemma {:induction false} RunAnnouncesFrom(cfg: Config, i: nat, st: Progress)
    requires i <= |cfg.entries| && Announces(st.blocks)
    ensures Announces(RunFrom(cfg, i, st).state.blocks)
    decreases |cfg.entries| - i
  {
    hide Announces, TurnAt, Finish;
    if i == |cfg.entries| {
      FinishAnnounces(st, true);
    } else {
      TurnAnnounces(cfg, i, st);
      match TurnAt(cfg, i, st)
      case GoesOn(st') => RunAnnouncesFrom(cfg, i + 1, st');
      case Stops(_) =>
    }
  }

  /** In every run and schedule, a group is started before anything that names it. */
  lemma RunAnnounces(cfg: Config, l: seq<Action>)
    requires Linearizes(l, Run(cfg).state.blocks)
    ensures Announced(l)
  {
    hide AllTagged, Announced;
    QuietEvent(WorkflowStarted, 1);
    QuietAnnounces([Emit(WorkflowStarted)]);
    RunAnnouncesFrom(cfg, 0, START);
    assert Realizes(l, Run(cfg).state.blocks);
  }

  // ---------------------------------------------------------------- no lookup fails

  /** A step's events come after its start. */
  lemma StartComesFirst(l: seq<Action>, next: nat, n: nat)
    requires StepsIn(l, 1, next) && n < |l| && KeyOf(l[n]).OfStep? && !IsStart(l[n], KeyOf(l[n]).id)
    ensures KeyOf(l[n]).id in JournalOf(l[..n]).stepAt
  {
    hide WholeStep, JournalOf;
    var id := KeyOf(l[n]).id;
    CallSeenByStep(l, n);
    var mine, k := Project(l, OfStep(id)), |Project(l[..n], OfStep(id))|;
    assert mine != [];
    StartsOnce(mine, id);
    StartsInFront(mine, id, k);
    StartsProjected(l[..n], id);
    StartedIds(l[..n], id);
  }

  lemma Unbroken(j: Journal, a: Action)
    requires Consistent(j) && !j.broken
    requires Needs(a).Some? ==> Needs(a).value in j.groupAt
    requires KeyOf(a).OfStep? && !IsStart(a, KeyOf(a).id) ==> KeyOf(a).id in j.stepAt
    ensures !OnAction(j, a).broken
  {
    hide NewRecord, OnStep;
  }

  /** At every moment of every schedule of every run, every lookup the journal made has succeeded. */
  lemma {:induction false} JournalNeverBreaks(cfg: Config, l: seq<Action>, n: nat)
    requires Linearizes(l, Run(cfg).state.blocks) && n <= |l|
    ensures !JournalOf(l[..n]).broken
    decreases n
  {
    hide Run, StepsIn, OnAction, HasStarted, Needs, IsStart;
    if n > 0 {
      JournalNeverBreaks(cfg, l, n - 1);
      RunSteps(cfg, l);
      RunAnnounces(cfg, l);
      assert AnnouncedAt(l, n - 1);
      var a := l[n - 1];
      if Needs(a).Some? { StartedIsKnown(l[..n - 1], Needs(a).value); }
      if KeyOf(a).OfStep? && !IsStart(a, KeyOf(a).id) { StartComesFirst(l, Run(cfg).state.next, n - 1); }
      Unbroken(JournalOf(l[..n - 1]), a);
      JournalSnoc(l[..n - 1], a);
      assert l[..n] == l[..n - 1] + [a];
    }
  }
}
