/**
 Crash and resume.  A run may stop after any action of any schedule; what it recorded until then is
 the checkpoint the next attempt starts from.  However many attempts there were, the last one ends
 like a run that was never interrupted.
 */
module Resume {
  import opened Wrappers
  import opened Values
  import opened Runtime
  import opened Merges
  import opened Blocks
  import opened Measures
  import opened Workers
  import opened Plans
  import opened StepLaws
  import opened RunLaws
  import opened Outcomes

  // ---------------------------------------------------------------- attempts at one run

  /** The same approvals asked for, and the same answers. */
  ghost predicate SameOutside(a: Config, b: Config) {
    a.policy.approvalFor == b.policy.approvalFor && a.world.approve == b.world.approve
  }

  /** Attempts at the same workflow: limits, clocks and checkpoints may differ, approvals may not. */
  ghost predicate Kin(a: Config, b: Config) {
    a.entries == b.entries && a.storing == b.storing && SameOutside(a, b)
  }

  predicate Unlimited(cfg: Config) {
    cfg.policy.maxRuntime.None? && cfg.policy.maxCost.None?
  }

  /** The run that nothing interrupts: from an empty checkpoint, without limits. */
  predicate Reference(r: Config) {
    Unlimited(r) && r.checkpoint == map[] && r.storing
  }

  lemma KinToolRun(a: Config, b: Config, tool: Tool, agent: Option<Agent>, id: nat, group: Option<GroupId>, m: Bindings, sink: bool)
    requires SameOutside(a, b)
    ensures ToolRun(a.policy, a.world, tool, agent, id, group, m, sink) == ToolRun(b.policy, b.world, tool, agent, id, group, m, sink)
  {
    hide Opening, Ending, CapabilityDenial, ApprovalDenial, LacksCapability;
  }

  lemma KinMembers(a: Config, b: Config, tools: seq<Tool>, agent: Option<Agent>, first: nat, group: GroupId, m: Bindings)
    requires SameOutside(a, b)
    ensures MemberRuns(a, tools, agent, first, group, m) == MemberRuns(b, tools, agent, first, group, m)
  {
    hide ToolRun, SameOutside;
    forall i | 0 <= i < |tools|
      ensures MemberRuns(a, tools, agent, first, group, m)[i] == MemberRuns(b, tools, agent, first, group, m)[i]
    {
      KinToolRun(a, b, tools[i], agent, first + i, Some(group), m, true);
    }
  }

  lemma KinDecide(a: Config, b: Config, step: Step, agent: Option<Agent>, votes: seq<Value>, id: nat, m: Bindings)
    requires SameOutside(a, b) && step.Consensus?
    ensures Decide(a, step, agent, votes, id, m) == Decide(b, step, agent, votes, id, m)
  {
    hide ToolRun, SameOutside, DecisionOpening, DecisionAgreed, DecisionRefused, StrategyError;
    if step.fallback.Some? { KinToolRun(a, b, step.fallback.value.tool, agent, id + 1, Some(step.id), m, false); }
  }

  /** An entry does the same in every attempt that reaches it in the same state. */
  lemma KinEntry(a: Config, b: Config, e: Entry, next: nat, m: Bindings, cache: map<GroupId, seq<Value>>)
    requires SameOutside(a, b)
    ensures RunEntry(a, e, next, m, cache) == RunEntry(b, e, next, m, cache)
  {
    hide ToolRun, SameOutside, Decide, MemberRuns, Members, Opened, Closed, DecideNothing;
    match e.step
    case Single(tool) => KinToolRun(a, b, tool, e.agent, next, None, m, true);
    case Parallel(id, tools) => KinMembers(a, b, tools, e.agent, next, id, m);
    case Consensus(id, tools, _, _, source, _) =>
      KinMembers(a, b, tools, e.agent, next, id, m);
      var runs := MemberRuns(a, tools, e.agent, next, id, m);
      if source.None? {
        if AllSucceeded(runs) { KinDecide(a, b, e.step, e.agent, Outputs(runs), next + |runs|, m); }
      } else if source.value in cache {
        KinDecide(a, b, e.step, e.agent, cache[source.value], next, m);
      }
  }

  // ---------------------------------------------------------------- faithful checkpoints

  /** The reference run gets past position p, with this record's tool and output. */
  ghost predicate RecordsAt(r: Config, p: nat, rt: Progress, saved: Saved) {
    && Arrives(r, p, rt) && p < |r.entries| && r.entries[p].step.Single?
    && TurnAt(r, p, rt).GoesOn?
    && saved.tool == r.entries[p].step.tool.name
    && RunEntry(r, r.entries[p], rt.next, rt.bindings, rt.cache).bound == Some(saved.output)
  }

  ghost predicate FaithfulAt(r: Config, p: nat, saved: Saved) {
    exists rt :: RecordsAt(r, p, rt, saved)
  }

  /** Every record is what the reference run would have recorded there. */
  ghost predicate Faithful(r: Config, cp: Checkpoint) {
    forall p | p in cp :: FaithfulAt(r, p, cp[p])
  }

  /** Everything about a state but what happened on the way and what it cost. */
  predicate Same(a: Progress, b: Progress) {
    a.next == b.next && a.bindings == b.bindings && a.cache == b.cache && a.outputs == b.outputs
  }

  ghost predicate SameTurn(a: Turn, b: Turn) {
    match (a, b)
    case (GoesOn(s), GoesOn(t)) => Same(s, t)
    case (Stops(p), Stops(q)) => p.ending == q.ending && Same(p.state, q.state)
    case _ => false
  }

  lemma SingleRun(cfg: Config, e: Entry, next: nat, m: Bindings, cache: map<GroupId, seq<Value>>)
    requires e.step.Single?
    ensures var run := RunEntry(cfg, e, next, m, cache);
      && run.next == next + 1 && run.cached == None && (run.ok <==> run.bound.Some?)
      && (run.bound.Some? ==> run.outputs == [run.bound.value])
  {
    hide ToolRun;
  }

  /** Running an entry in the same state leads to the same state. */
  lemma SameAfterRunning(a: Config, b: Config, i: nat, s: Progress, t: Progress, run: EntryRun)
    requires Kin(a, b) && i < |a.entries| && Same(s, t)
    ensures SameTurn(AfterRunning(a, i, s, run), AfterRunning(b, i, t, run))
  {
    hide Storable;
  }

  /** One turn of an attempt that is not cut does what the reference run does at that entry. */
  lemma LockstepTurn(r: Config, c: Config, i: nat, rt: Progress, st: Progress)
    requires Reference(r) && Kin(c, r) && Faithful(r, c.checkpoint)
    requires Arrives(r, i, rt) && i < |r.entries| && Same(st, rt)
    requires !OverTime(c, i) && !OverBudget(c, st.cost)
    ensures SameTurn(TurnAt(c, i, st), TurnAt(r, i, rt))
  {
    hide RunEntry, AfterRunning, Kin, Arrives;
    var e := r.entries[i];
    KinEntriesAgree(c, r);
    var run := RunEntry(r, e, rt.next, rt.bindings, rt.cache);
    KinOutside(c, r);
    KinEntry(c, r, e, rt.next, rt.bindings, rt.cache);
    assert TurnAt(r, i, rt) == AfterRunning(r, i, rt, run);
    if Replays(c, i) {
      assert FaithfulAt(r, i, c.checkpoint[i]);
      ReplaySame(r, c, i, rt, st);
    } else {
      SameAfterRunning(c, r, i, st, rt, run);
    }
  }

  lemma KinEntriesAgree(a: Config, b: Config)
    requires Kin(a, b)
    ensures a.entries == b.entries
  {
  }

  lemma KinOutside(a: Config, b: Config)
    requires Kin(a, b)
    ensures SameOutside(a, b)
  {
  }

  /** Replaying a faithful record leads to the state that running the step leads to. */
  lemma ReplaySame(r: Config, c: Config, i: nat, rt: Progress, st: Progress)
    requires Reference(r) && c.entries == r.entries && Arrives(r, i, rt) && Same(st, rt)
    requires i < |r.entries| && Replays(c, i) && FaithfulAt(r, i, c.checkpoint[i])
    requires !OverTime(c, i) && !OverBudget(c, st.cost)
    ensures SameTurn(TurnAt(c, i, st), TurnAt(r, i, rt))
  {
    hide RunEntry, Storable;
    var saved, e := c.checkpoint[i], r.entries[i];
    var at :| RecordsAt(r, i, at, saved);
    assert at == rt;
    SingleRun(r, e, rt.next, rt.bindings, rt.cache);
    assert TurnAt(c, i, st) == GoesOn(Replay(st, e, saved));
  }

  /** Wherever an attempt arrives, the reference run arrives in the same state. */
  lemma {:induction false} Lockstep(r: Config, c: Config, i: nat, st: Progress) returns (rt: Progress)
    requires Reference(r) && Kin(c, r) && Faithful(r, c.checkpoint) && Arrives(c, i, st)
    ensures Arrives(r, i, rt) && Same(st, rt)
    decreases i
  {
    hide TurnAt, Arrives, Faithful, Kin;
    KinEntriesAgree(c, r);
    if i == 0 {
      ArrivesAtStart(c, st);
      ArrivesStart(r);
      rt := START;
    } else {
      ArrivesWithin(c, i, st);
      var before := ArrivesBefore(c, i, st);
      var rb := Lockstep(r, c, i - 1, before);
      GoesOnUncut(c, i - 1, before);
      LockstepTurn(r, c, i - 1, rb, before);
      ArrivesNext(r, i - 1, rb);
      rt := TurnAt(r, i - 1, rb).state;
    }
  }

  lemma GoesOnUncut(c: Config, i: nat, st: Progress)
    requires i < |c.entries| && TurnAt(c, i, st).GoesOn?
    ensures !OverTime(c, i) && !OverBudget(c, st.cost)
  {
  }

  lemma {:induction false} ArrivesRemaining(cfg: Config, i: nat, st: Progress)
    requires Arrives(cfg, i, st)
    ensures i <= |cfg.entries| && Run(cfg) == Remaining(cfg, i, st)
    decreases i
  {
    hide TurnAt, Run, Remaining, Arrives;
    ArrivesWithin(cfg, i, st);
    if i == 0 {
      ArrivesAtStart(cfg, st);
      RunIsRemaining(cfg);
    } else {
      var before := ArrivesBefore(cfg, i, st);
      ArrivesRemaining(cfg, i - 1, before);
      RemainingTurn(cfg, i - 1, before);
    }
  }

  lemma RunIsRemaining(cfg: Config)
    ensures Run(cfg) == Remaining(cfg, 0, START)
  {
  }

  lemma EndsHere(cfg: Config, i: nat, st: Progress)
    requires Arrives(cfg, i, st) && (i < |cfg.entries| ==> TurnAt(cfg, i, st).Stops?)
    ensures EndsAt(cfg, i, st)
  {
    hide TurnAt, Finish, Run, Remaining;
    ArrivesRemaining(cfg, i, st);
    if i == |cfg.entries| { RemainingEnd(cfg, st); } else { RemainingTurn(cfg, i, st); }
  }

  /** An attempt that nothing cuts ends like the reference run. */
  lemma UncutRunEndsAlike(r: Config, c: Config)
    requires Reference(r) && Kin(c, r) && Faithful(r, c.checkpoint) && !SomeCut(c)
    ensures Run(c).ending == Run(r).ending && Same(Run(c).state, Run(r).state)
  {
    hide TurnAt, Run, Faithful, Kin;
    var k, last := RunEnds(c);
    KinEntriesAgree(c, r);
    var rt := Lockstep(r, c, k, last);
    if k < |c.entries| {
      assert !Cut(c, k, last);
      LockstepTurn(r, c, k, rt, last);
    }
    EndsHere(r, k, rt);
  }

  // ---------------------------------------------------------------- cost budgets

  /** No call of a sequential step reports a negative cost. */
  ghost predicate NonNegativeCosts(cfg: Config) {
    forall i, id, m | 0 <= i < |cfg.entries| && cfg.entries[i].step.Single? ::
      CostIn(cfg.entries[i].step.tool.usage(id, m)) >= 0.0
  }

  predicate NoNegativeCharge(l: seq<Action>) {
    forall i | 0 <= i < |l| && l[i].Charge? :: l[i].amount >= 0.0
  }

  lemma {:induction false} ChargesAddUp(l: seq<Action>)
    requires NoNegativeCharge(l)
    ensures Measure(l, Cost) >= 0.0
    decreases |l|
  {
    if l != [] { ChargesAddUp(Init(l)); }
  }

  lemma PlainCharges(l: seq<Action>)
    requires AllPlain(l)
    ensures NoNegativeCharge(l)
  {
  }

  lemma ChargesConcat(l: seq<Action>, m: seq<Action>)
    requires NoNegativeCharge(l) && NoNegativeCharge(m)
    ensures NoNegativeCharge(l + m)
  {
  }

  lemma EndingCharges(tool: Tool, id: nat, group: Option<GroupId>, m: Bindings, last: Attempt, sink: bool)
    requires CostIn(tool.usage(id, m)) >= 0.0
    ensures NoNegativeCharge(Ending(tool, id, group, m, last, sink))
  {
    hide ErrorText, CostIn;
  }

  lemma SingleCost(cfg: Config, e: Entry, next: nat, m: Bindings, cache: map<GroupId, seq<Value>>)
    requires e.step.Single? && CostIn(e.step.tool.usage(next, m)) >= 0.0
    ensures Measure(Sequential(RunEntry(cfg, e, next, m, cache).blocks), Cost) >= 0.0
  {
    hide Body, Ending, Opening, CostIn;
    var tool := e.step.tool;
    var (body, last) := Body(cfg.policy, cfg.world, tool, e.agent, next, None, m);
    var l := ToolRun(cfg.policy, cfg.world, tool, e.agent, next, None, m, true).actions;
    BodyPlain(cfg.policy, cfg.world, tool, e.agent, next, None, m);
    PlainCharges(body);
    OpeningCharges(tool, next);
    EndingCharges(tool, next, None, m, last, true);
    ChargesConcat(Opening(tool, next, None), body);
    ChargesConcat(Opening(tool, next, None) + body, Ending(tool, next, None, m, last, true));
    ChargesAddUp(l);
    SequentialOne(Solo(l));
  }

  lemma OpeningCharges(tool: Tool, id: nat)
    ensures NoNegativeCharge(Opening(tool, id, None))
  {
  }

  /** A turn adds an entry's cost if it runs the entry and nothing if it replays it. */
  lemma TurnCost(c: Config, i: nat, st: Progress)
    requires i < |c.entries| && TurnAt(c, i, st).GoesOn?
    ensures TurnAt(c, i, st).state.cost == st.cost + if Replays(c, i) then 0.0 else EntryCost(c, i, st)
  {
    hide RunEntry, Storable, Measure;
  }

  lemma EntryCostSame(a: Config, b: Config, i: nat, s: Progress, t: Progress)
    requires Kin(a, b) && i < |a.entries| && Same(s, t)
    ensures EntryCost(a, i, s) == EntryCost(b, i, t)
  {
    hide RunEntry, Kin;
    KinEntriesAgree(a, b);
    KinOutside(a, b);
    KinEntry(a, b, a.entries[i], s.next, s.bindings, s.cache);
  }

  /** Replaying never costs more than running. */
  lemma CheaperTurn(c: Config, b: Config, i: nat, st: Progress, bt: Progress)
    requires Kin(c, b) && b.checkpoint == map[] && NonNegativeCosts(b) && i < |b.entries| && Same(st, bt)
    requires st.cost <= bt.cost && TurnAt(c, i, st).GoesOn? && TurnAt(b, i, bt).GoesOn?
    ensures TurnAt(c, i, st).state.cost <= TurnAt(b, i, bt).state.cost
  {
    hide TurnAt, Kin, EntryCost, CostIn, RunEntry;
    KinEntriesAgree(c, b);
    TurnCost(c, i, st);
    TurnCost(b, i, bt);
    EntryCostSame(c, b, i, st, bt);
    if Replays(c, i) { NonNegativeEntry(b, i, bt); }
  }

  lemma NonNegativeEntry(b: Config, i: nat, bt: Progress)
    requires NonNegativeCosts(b) && i < |b.entries| && b.entries[i].step.Single?
    ensures EntryCost(b, i, bt) >= 0.0
  {
    hide RunEntry, CostIn;
    SingleCost(b, b.entries[i], bt.next, bt.bindings, bt.cache);
  }

  /** The attempt c resumes what b does from the start, under the same cost budget. */
  ghost predicate ResumesWithin(r: Config, c: Config, b: Config) {
    && Reference(r) && Kin(c, r) && Kin(b, r) && Faithful(r, c.checkpoint)
    && b.checkpoint == map[] && NonNegativeCosts(b)
    && c.policy.maxRuntime.None? && c.policy.maxCost == b.policy.maxCost
  }

  /** Where b arrives, c arrives, in the same state and having spent no more. */
  lemma {:induction false} BudgetLockstep(r: Config, c: Config, b: Config, i: nat, bt: Progress) returns (st: Progress)
    requires ResumesWithin(r, c, b) && Arrives(b, i, bt)
    ensures Arrives(c, i, st) && Same(st, bt) && st.cost <= bt.cost
    decreases i
  {
    hide TurnAt, Arrives, Faithful, Kin;
    KinEntriesAgree(c, r);
    KinEntriesAgree(b, r);
    if i == 0 {
      ArrivesAtStart(b, bt);
      ArrivesStart(c);
      st := START;
    } else {
      ArrivesWithin(b, i, bt);
      var before := ArrivesBefore(b, i, bt);
      var sb := BudgetLockstep(r, c, b, i - 1, before);
      GoesOnUncut(b, i - 1, before);
      SameTurns(r, c, b, i - 1, sb, before);
      ArrivesNext(c, i - 1, sb);
      st := TurnAt(c, i - 1, sb).state;
      KinTrans(c, r, b);
      CheaperTurn(c, b, i - 1, sb, before);
    }
  }

  lemma KinTrans(a: Config, b: Config, c: Config)
    requires Kin(a, b) && Kin(c, b)
    ensures Kin(a, c)
  {
  }

  lemma SameTurns(r: Config, c: Config, b: Config, i: nat, st: Progress, bt: Progress)
    requires ResumesWithin(r, c, b) && i < |r.entries| && Arrives(b, i, bt) && Same(st, bt) && st.cost <= bt.cost
    requires !OverTime(b, i) && !OverBudget(b, bt.cost)
    ensures SameTurn(TurnAt(c, i, st), TurnAt(b, i, bt))
  {
    hide TurnAt, Arrives, Kin, Faithful;
    EmptyFaithful(r, b);
    var rt := Lockstep(r, b, i, bt);
    LockstepTurn(r, b, i, rt, bt);
    LockstepTurn(r, c, i, rt, st);
  }

  lemma {:induction false} OutputsGrow(c: Config, i: nat, st: Progress)
    requires i <= |c.entries|
    ensures st.outputs <= Remaining(c, i, st).state.outputs
    decreases |c.entries| - i
  {
    hide TurnAt, Remaining;
    if i == |c.entries| {
      RemainingEnd(c, st);
    } else {
      RemainingTurn(c, i, st);
      TurnGrows(c, i, st);
      if TurnAt(c, i, st).GoesOn? { OutputsGrow(c, i + 1, TurnAt(c, i, st).state); }
    }
  }

  lemma TurnGrows(c: Config, i: nat, st: Progress)
    requires i < |c.entries|
    ensures match TurnAt(c, i, st)
      case GoesOn(st') => st.outputs <= st'.outputs
      case Stops(r) => st.outputs <= r.state.outputs
  {
    hide RunEntry, Storable, Measure;
  }

  lemma {:induction false} ArrivesEarlier(c: Config, k: nat, last: Progress, i: nat) returns (st: Progress)
    requires Arrives(c, k, last) && i <= k
    ensures Arrives(c, i, st)
    decreases k
  {
    hide TurnAt, Arrives;
    if i == k {
      st := last;
    } else {
      var before := ArrivesBefore(c, k, last);
      st := ArrivesEarlier(c, k - 1, before, i);
    }
  }

  /** An entry at which the budget cuts the resumed run cuts the run from the start. */
  lemma CutsBoth(r: Config, c: Config, b: Config, k: nat, last: Progress, i: nat, st: Progress) returns (bt: Progress)
    requires ResumesWithin(r, c, b) && EndsAt(b, k, last) && !Cut(b, k, last) && Cut(c, i, st)
    ensures Cut(b, i, bt)
  {
    hide TurnAt, Faithful, Kin, Run;
    KinEntriesAgree(c, r);
    KinEntriesAgree(b, r);
    EmptyFaithful(r, b);
    var rk := Lockstep(r, b, k, last);
    if k < |b.entries| { LockstepTurn(r, b, k, rk, last); }
    EndsHere(r, k, rk);
    var rt := Lockstep(r, c, i, st);
    ArrivesUpTo(r, i, rt, k, rk);
    bt := ArrivesEarlier(b, k, last, i);
    var st' := BudgetLockstep(r, c, b, i, bt);
    NotOverTime(c, i);
  }

  /** If nothing cuts the run from the start, nothing cuts the resumed one. */
  lemma ResumedUncut(r: Config, c: Config, b: Config)
    requires ResumesWithin(r, c, b) && !SomeCut(b)
    ensures !SomeCut(c)
  {
    hide Cut, EndsAt, ResumesWithin;
    var k, last := RunEnds(b);
    if i, st :| Cut(c, i, st) {
      var bt := CutsBoth(r, c, b, k, last, i, st);
    }
  }

  lemma NotOverTime(c: Config, i: nat)
    requires c.policy.maxRuntime.None?
    ensures !OverTime(c, i)
  {
  }

  /** With a cost budget the resumed run gets at least as far, and ends alike where the other was not cut. */
  lemma BudgetedResume(r: Config, c: Config, b: Config)
    requires ResumesWithin(r, c, b)
    ensures Run(b).state.outputs <= Run(c).state.outputs
    ensures !SomeCut(b) ==> Run(c).ending == Run(b).ending && Same(Run(c).state, Run(b).state)
  {
    hide TurnAt, Faithful, Kin, Run, Remaining, SomeCut;
    if !SomeCut(b) {
      ResumedUncut(r, c, b);
      UncutRunEndsAlike(r, c);
      EmptyFaithful(r, b);
      UncutRunEndsAlike(r, b);
    } else {
      var k, last := CutEnds(b);
      var st := BudgetLockstep(r, c, b, k, last);
      ArrivesRemaining(c, k, st);
      OutputsGrow(c, k, st);
    }
  }

  lemma EmptyFaithful(r: Config, b: Config)
    requires b.checkpoint == map[]
    ensures Faithful(r, b.checkpoint)
  {
  }

  lemma CutEnds(b: Config) returns (k: nat, last: Progress)
    requires SomeCut(b)
    ensures Arrives(b, k, last) && Run(b).state.outputs == last.outputs
  {
    hide Run, RunEntry;
    k, last := RunEnds(b);
    var i, st :| Cut(b, i, st);
    StopsHere(b, i, st, k, last);
  }
}
