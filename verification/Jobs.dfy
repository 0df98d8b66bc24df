/**
 Which tool a step runs.  An entry's k-th step has a fixed job: its tool, its k-th member or voter, or
 its fallback, under the entry's agent and the group's tag.  On every schedule of every run a step is the
 thread of its own job, or enters no tool at all.
 */
module Jobs {
  import opened Wrappers
  import opened Values
  import opened Runtime
  import opened Merges
  import opened Blocks
  import opened Workers
  import opened WorkerLaws
  import opened Plans
  import opened StepLaws
  import opened RunLaws
  import opened Outcomes

  /** What a step runs: a tool under an agent, tagged with a group, reading these bindings. */
  datatype Job = Job(tool: Tool, agent: Option<Agent>, group: Option<GroupId>, bindings: Bindings)

  /** A group's steps carry its id; a sequential step carries none. */
  function EntryTag(e: Entry): Option<GroupId> {
    if e.step.Single? then None else Some(e.step.id)
  }

  /** How many voters a consensus runs itself. */
  function Voters(e: Entry): nat
    requires e.step.Consensus?
  {
    if e.step.source.None? then |e.step.tools| else 0
  }

  /** The tool of an entry's k-th step; the step that reduces the votes has none. */
  function ToolAt(e: Entry, k: nat): Option<Tool> {
    match e.step
    case Single(tool) => if k == 0 then Some(tool) else None
    case Parallel(_, tools) => if k < |tools| then Some(tools[k]) else None
    case Consensus(_, tools, _, _, _, fallback) =>
      if k < Voters(e) then Some(tools[k])
      else if k == Voters(e) + 1 && fallback.Some? then Some(fallback.value.tool)
      else None
  }

  function JobAt(e: Entry, k: nat, b: Bindings): Option<Job> {
    if ToolAt(e, k).Some? then Some(Job(ToolAt(e, k).value, e.agent, EntryTag(e), b)) else None
  }

  /** Neither a call nor the retry of one. */
  predicate IsIdle(a: Action) {
    !a.Execute? && (a.Emit? ==> !a.event.RetryAttempted?)
  }

  predicate Idle(l: seq<Action>) {
    forall i | 0 <= i < |l| :: IsIdle(l[i])
  }

  ghost predicate IsThreadOf(mine: seq<Action>, cfg: Config, id: nat, job: Job) {
    exists sink :: mine == ToolRun(cfg.policy, cfg.world, job.tool, job.agent, id, job.group, job.bindings, sink).actions
  }

  /** What a step does, given its job. */
  ghost predicate Staffed(mine: seq<Action>, cfg: Config, id: nat, job: Option<Job>) {
    match job
    case None => Idle(mine)
    case Some(j) => IsThreadOf(mine, cfg, id, j)
  }

  // ---------------------------------------------------------------- one entry

  /** An entry being run from step id `base` on. */
  datatype Crew = Crew(cfg: Config, e: Entry, b: Bindings, base: nat)

  /** The steps from..to - 1 are whole, and each does its job. */
  ghost predicate Part(c: Crew, l: seq<Action>, from: nat, to: nat) {
    && StepsIn(l, from, to) && c.base <= from
    && forall id: nat | from <= id < to :: Staffed(Project(l, OfStep(id)), c.cfg, id, JobAt(c.e, id - c.base, c.b))
  }

  /** A step of either part is the same step of the whole. */
  lemma OneSide(l: seq<Action>, m: seq<Action>, from: nat, mid: nat, to: nat, id: nat)
    requires StepsIn(l, from, mid) && StepsIn(m, mid, to) && from <= id < to
    ensures Project(l + m, OfStep(id)) == if id < mid then Project(l, OfStep(id)) else Project(m, OfStep(id))
  {
    hide WholeStep, Project;
    ProjectConcat(l, m, OfStep(id));
    var p, q := Project(l, OfStep(id)), Project(m, OfStep(id));
    assert p + [] == p && [] + q == q;
  }

  lemma PartConcat(c: Crew, l: seq<Action>, m: seq<Action>, from: nat, mid: nat, to: nat)
    requires Part(c, l, from, mid) && Part(c, m, mid, to)
    ensures Part(c, l + m, from, to)
  {
    hide WholeStep, Staffed, JobAt;
    StepsConcat(l, m, from, mid, to);
    forall id: nat | from <= id < to ensures Staffed(Project(l + m, OfStep(id)), c.cfg, id, JobAt(c.e, id - c.base, c.b)) {
      OneSide(l, m, from, mid, to, id);
    }
  }

  lemma PartQuiet(c: Crew, a: Action, n: nat)
    requires !KeyOf(a).OfStep? && c.base <= n
    ensures Part(c, [a], n, n)
  {
    StepsNone([a], n);
  }

  lemma OwnProjection(l: seq<Action>, id: nat, ok: bool)
    requires Whole(l, id, ok)
    ensures Project(l, OfStep(id)) == l && StepsIn(l, id, id + 1)
  {
    ProjectAll(l, OfStep(id));
    StepsOne(l, id, ok);
  }

  lemma PartRun(c: Crew, id: nat, job: Job, sink: bool)
    requires c.base <= id && JobAt(c.e, id - c.base, c.b) == Some(job)
    ensures Part(c, ToolRun(c.cfg.policy, c.cfg.world, job.tool, job.agent, id, job.group, job.bindings, sink).actions, id, id + 1)
  {
    hide ToolRun, Whole, StepsIn;
    var run := ToolRun(c.cfg.policy, c.cfg.world, job.tool, job.agent, id, job.group, job.bindings, sink);
    ToolRunWhole(c.cfg.policy, c.cfg.world, job.tool, job.agent, id, job.group, job.bindings, sink);
    OwnProjection(run.actions, id, run.output.Some?);
  }

  lemma PartIdle(c: Crew, l: seq<Action>, id: nat, ok: bool)
    requires c.base <= id && JobAt(c.e, id - c.base, c.b) == None && Whole(l, id, ok) && Idle(l)
    ensures Part(c, l, id, id + 1)
  {
    hide Whole, StepsIn;
    OwnProjection(l, id, ok);
  }

  lemma DecisionIdle(name: string, id: nat, group: GroupId, error: string, value: Value, metadata: Option<map<string, Meta>>)
    ensures Idle(DecisionOpening(name, id, group) + DecisionRefused(name, id, group, error))
    ensures Idle(DecisionOpening(name, id, group) + DecisionAgreed(name, id, group, value, metadata))
  {
  }

  lemma PartRefused(c: Crew, id: nat, error: string)
    requires c.e.step.Consensus? && id == c.base + Voters(c.e)
    ensures Part(c, DecisionOpening(c.e.step.name, id, c.e.step.id) + DecisionRefused(c.e.step.name, id, c.e.step.id, error), id, id + 1)
  {
    hide Whole, Part;
    RefusalWhole(c.e.step.name, id, c.e.step.id, error);
    DecisionIdle(c.e.step.name, id, c.e.step.id, error, Null, None);
    PartIdle(c, DecisionOpening(c.e.step.name, id, c.e.step.id) + DecisionRefused(c.e.step.name, id, c.e.step.id, error), id, false);
  }

  lemma PartAgreed(c: Crew, id: nat, value: Value, metadata: Option<map<string, Meta>>)
    requires c.e.step.Consensus? && id == c.base + Voters(c.e)
    ensures Part(c, DecisionOpening(c.e.step.name, id, c.e.step.id) + DecisionAgreed(c.e.step.name, id, c.e.step.id, value, metadata), id, id + 1)
  {
    hide Whole, Part;
    AgreementWhole(c.e.step.name, id, c.e.step.id, value, metadata);
    DecisionIdle(c.e.step.name, id, c.e.step.id, "", value, metadata);
    PartIdle(c, DecisionOpening(c.e.step.name, id, c.e.step.id) + DecisionAgreed(c.e.step.name, id, c.e.step.id, value, metadata), id, true);
  }

  /** The step that reduces the votes, and the fallback after it. */
  lemma PartDecide(c: Crew, votes: seq<Value>, id: nat)
    requires c.e.step.Consensus? && id == c.base + Voters(c.e)
    ensures var d := Decide(c.cfg, c.e.step, c.e.agent, votes, id, c.b); Part(c, d.actions, id, d.next)
  {
    hide Part, ToolRun, DecisionOpening, DecisionRefused, DecisionAgreed, StrategyError;
    match c.e.step.strategy(id, votes)
    case Disagreed(err) => PartRefused(c, id, StrategyError(err));
    case Agreed(value, metadata) =>
      PartAgreed(c, id, value, metadata);
      if Triggers(c.e.step.fallback, metadata) {
        var job := Job(c.e.step.fallback.value.tool, c.e.agent, Some(c.e.step.id), c.b);
        PartRun(c, id + 1, job, false);
        PartConcat(c, DecisionOpening(c.e.step.name, id, c.e.step.id) + DecisionAgreed(c.e.step.name, id, c.e.step.id, value, metadata),
                   ToolRun(c.cfg.policy, c.cfg.world, job.tool, job.agent, id + 1, job.group, job.bindings, false).actions, id, id + 1, id + 2);
      }
  }

  /** The entry runs its tools as members. */
  predicate Concurrent(e: Entry) {
    e.step.Parallel? || (e.step.Consensus? && e.step.source.None?)
  }

  lemma {:induction false} PartFlatten(c: Crew, n: nat)
    requires Concurrent(c.e) && n <= |c.e.step.tools|
    ensures Part(c, Flatten(Members(MemberRuns(c.cfg, c.e.step.tools, c.e.agent, c.base, c.e.step.id, c.b))[..n]), c.base, c.base + n)
    decreases n
  {
    hide ToolRun, Part;
    var members := Members(MemberRuns(c.cfg, c.e.step.tools, c.e.agent, c.base, c.e.step.id, c.b));
    if n == 0 {
      PartNothing(c);
    } else {
      PartFlatten(c, n - 1);
      var job := Job(c.e.step.tools[n - 1], c.e.agent, Some(c.e.step.id), c.b);
      PartRun(c, c.base + n - 1, job, true);
      PartConcat(c, Flatten(members[..n - 1]), members[n - 1], c.base, c.base + n - 1, c.base + n);
      assert Init(members[..n]) == members[..n - 1] && Last(members[..n]) == members[n - 1];
    }
  }

  lemma PartNothing(c: Crew)
    ensures Part(c, [], c.base, c.base)
  {
    StepsNone([], c.base);
  }

  lemma PartMembers(c: Crew)
    requires Concurrent(c.e)
    ensures Part(c, InOrder(Fork(Members(MemberRuns(c.cfg, c.e.step.tools, c.e.agent, c.base, c.e.step.id, c.b)))), c.base, c.base + |c.e.step.tools|)
  {
    hide MemberRuns, Members, Part;
    var members := Members(MemberRuns(c.cfg, c.e.step.tools, c.e.agent, c.base, c.e.step.id, c.b));
    PartFlatten(c, |c.e.step.tools|);
    assert members[..|c.e.step.tools|] == members;
  }

  lemma PartGroup(c: Crew, ok: bool, n: nat)
    requires !c.e.step.Single? && c.base <= n
    ensures Part(c, InOrder(Opened(c.e.step)), n, n) && Part(c, InOrder(Closed(c.e.step, ok)), n, n)
  {
    PartQuiet(c, Emit(GroupStarted(c.e.step.id, Names(c.e.step.tools), c.e.step.Consensus?)), n);
    PartQuiet(c, Emit(GroupFinished(c.e.step.id, ok)), n);
  }

  lemma PartThree(c: Crew, x: Block, y: Block, z: Block, n: nat, m: nat)
    requires Part(c, InOrder(x), n, n) && Part(c, InOrder(y), n, m) && Part(c, InOrder(z), m, m)
    ensures Part(c, Sequential([x, y, z]), n, m)
  {
    hide Part;
    SequentialThree(x, y, z);
    PartConcat(c, InOrder(x), InOrder(y), n, n, m);
    PartConcat(c, InOrder(x) + InOrder(y), InOrder(z), n, m, m);
  }

  lemma PartFour(c: Crew, x: Block, y: Block, z: Block, w: Block, n: nat, m: nat, k: nat)
    requires Part(c, InOrder(x), n, n) && Part(c, InOrder(y), n, m) && Part(c, InOrder(z), m, k) && Part(c, InOrder(w), k, k)
    ensures Part(c, Sequential([x, y, z, w]), n, k)
  {
    hide Part;
    SequentialFour(x, y, z, w);
    PartConcat(c, InOrder(x), InOrder(y), n, n, m);
    PartConcat(c, InOrder(x) + InOrder(y), InOrder(z), n, m, k);
    PartConcat(c, InOrder(x) + InOrder(y) + InOrder(z), InOrder(w), n, k, k);
  }

  lemma PartSingle(c: Crew)
    requires c.e.step.Single?
    ensures Part(c, Sequential(RunSingle(c.cfg, c.e, c.base, c.b).blocks), c.base, c.base + 1)
  {
    hide ToolRun, Part;
    SequentialOne(Solo(ToolRun(c.cfg.policy, c.cfg.world, c.e.step.tool, c.e.agent, c.base, None, c.b, true).actions));
    PartRun(c, c.base, Job(c.e.step.tool, c.e.agent, None, c.b), true);
  }

  lemma PartParallel(c: Crew)
    requires c.e.step.Parallel?
    ensures var run := RunParallel(c.cfg, c.e, c.base, c.b); Part(c, Sequential(run.blocks), c.base, run.next)
  {
    hide MemberRuns, Members, Part, Opened, Closed;
    var runs := MemberRuns(c.cfg, c.e.step.tools, c.e.agent, c.base, c.e.step.id, c.b);
    PartMembers(c);
    PartGroup(c, AllSucceeded(runs), c.base);
    PartGroup(c, AllSucceeded(runs), c.base + |runs|);
    PartThree(c, Opened(c.e.step), Fork(Members(runs)), Closed(c.e.step, AllSucceeded(runs)), c.base, c.base + |runs|);
  }

  lemma PartVoters(c: Crew)
    requires c.e.step.Consensus? && c.e.step.source.None?
    ensures var run := RunVoters(c.cfg, c.e, c.base, c.b); Part(c, Sequential(run.blocks), c.base, run.next)
  {
    hide Decide, MemberRuns, Members, Part, Opened, Closed;
    var runs := MemberRuns(c.cfg, c.e.step.tools, c.e.agent, c.base, c.e.step.id, c.b);
    PartMembers(c);
    PartGroup(c, false, c.base);
    if AllSucceeded(runs) {
      var d := Decide(c.cfg, c.e.step, c.e.agent, Outputs(runs), c.base + |runs|, c.b);
      PartDecide(c, Outputs(runs), c.base + |runs|);
      DecideAdvances(c.cfg, c.e.step, c.e.agent, Outputs(runs), c.base + |runs|, c.b);
      PartGroup(c, d.ok, d.next);
      PartFour(c, Opened(c.e.step), Fork(Members(runs)), Solo(d.actions), Closed(c.e.step, d.ok), c.base, c.base + |runs|, d.next);
    } else {
      PartGroup(c, false, c.base + |runs|);
      PartThree(c, Opened(c.e.step), Fork(Members(runs)), Closed(c.e.step, false), c.base, c.base + |runs|);
    }
  }

  lemma DecideAdvances(cfg: Config, step: Step, agent: Option<Agent>, votes: seq<Value>, id: nat, b: Bindings)
    requires step.Consensus?
    ensures Decide(cfg, step, agent, votes, id, b).next > id
  {
    hide ToolRun, DecisionOpening, DecisionRefused, DecisionAgreed, StrategyError, Triggers;
  }

  lemma PartReuse(c: Crew, cache: map<GroupId, seq<Value>>)
    requires c.e.step.Consensus? && c.e.step.source.Some?
    ensures var run := RunReuse(c.cfg, c.e, c.base, c.b, cache); Part(c, Sequential(run.blocks), c.base, run.next)
  {
    hide Decide, Part, Opened, Closed, DecisionOpening, DecisionRefused, NothingToReuse;
    var d := if c.e.step.source.value in cache then Decide(c.cfg, c.e.step, c.e.agent, cache[c.e.step.source.value], c.base, c.b)
             else DecideNothing(c.e.step, c.base);
    if c.e.step.source.value in cache {
      PartDecide(c, cache[c.e.step.source.value], c.base);
      DecideAdvances(c.cfg, c.e.step, c.e.agent, cache[c.e.step.source.value], c.base, c.b);
    } else {
      PartRefused(c, c.base, NothingToReuse(c.e.step.source.value));
    }
    PartGroup(c, d.ok, c.base);
    PartGroup(c, d.ok, d.next);
    PartThree(c, Opened(c.e.step), Solo(d.actions), Closed(c.e.step, d.ok), c.base, d.next);
  }

  /** Whatever the entry, each of its steps does its own job. */
  lemma EntryStaffed(c: Crew, cache: map<GroupId, seq<Value>>)
    ensures var run := RunEntry(c.cfg, c.e, c.base, c.b, cache); Part(c, Sequential(run.blocks), c.base, run.next)
  {
    hide RunSingle, RunParallel, RunVoters, RunReuse, Part;
    match c.e.step
    case Single(_) => PartSingle(c); SingleNext(c);
    case Parallel(_, _) => PartParallel(c);
    case Consensus(_, _, _, _, source, _) =>
      if source.None? { PartVoters(c); } else { PartReuse(c, cache); }
  }

  lemma SingleNext(c: Crew)
    requires c.e.step.Single?
    ensures RunSingle(c.cfg, c.e, c.base, c.b).next == c.base + 1
  {
    hide ToolRun;
  }

  // ---------------------------------------------------------------- every run

  /** Step `id` belongs to entry i, which the run reached in state st, and this is its job there. */
  ghost predicate HasJob(cfg: Config, id: nat, i: nat, st: Progress, job: Job) {
    && Arrives(cfg, i, st) && i < |cfg.entries|
    && st.next <= id < RunEntry(cfg, cfg.entries[i], st.next, st.bindings, st.cache).next
    && JobAt(cfg.entries[i], id - st.next, st.bindings) == Some(job)
  }

  /** A step that enters a tool is the thread of its own job. */
  ghost predicate Originates(mine: seq<Action>, cfg: Config, id: nat) {
    Idle(mine) || exists i, st, job :: HasJob(cfg, id, i, st, job) && IsThreadOf(mine, cfg, id, job)
  }

  ghost predicate AllOriginate(cfg: Config, l: seq<Action>, from: nat, to: nat) {
    StepsIn(l, from, to) && forall id: nat | from <= id < to :: Originates(Project(l, OfStep(id)), cfg, id)
  }

  lemma OriginatesConcat(cfg: Config, l: seq<Action>, m: seq<Action>, a: nat, b: nat, c: nat)
    requires AllOriginate(cfg, l, a, b) && AllOriginate(cfg, m, b, c)
    ensures AllOriginate(cfg, l + m, a, c)
  {
    hide WholeStep, Originates;
    StepsConcat(l, m, a, b, c);
    forall id: nat | a <= id < c ensures Originates(Project(l + m, OfStep(id)), cfg, id) {
      ProjectConcat(l, m, OfStep(id));
      var p, q := Project(l, OfStep(id)), Project(m, OfStep(id));
      assert p + [] == p && [] + q == q;
    }
  }

  lemma QuietOriginates(cfg: Config, a: Action, n: nat)
    requires !KeyOf(a).OfStep?
    ensures AllOriginate(cfg, [a], n, n)
  {
    StepsNone([a], n);
  }

  lemma IdleOriginates(cfg: Config, l: seq<Action>, id: nat, ok: bool)
    requires Whole(l, id, ok) && Idle(l)
    ensures AllOriginate(cfg, l, id, id + 1)
  {
    hide Whole, StepsIn, Idle;
    OwnProjection(l, id, ok);
  }

  lemma StaffedOriginates(cfg: Config, i: nat, st: Progress, mine: seq<Action>, id: nat)
    requires Arrives(cfg, i, st) && i < |cfg.entries|
    requires st.next <= id < RunEntry(cfg, cfg.entries[i], st.next, st.bindings, st.cache).next
    requires Staffed(mine, cfg, id, JobAt(cfg.entries[i], id - st.next, st.bindings))
    ensures Originates(mine, cfg, id)
  {
    hide Arrives, RunEntry, JobAt, Idle, IsThreadOf;
    var job := JobAt(cfg.entries[i], id - st.next, st.bindings);
    if job.Some? { assert HasJob(cfg, id, i, st, job.value); }
  }

  lemma EntryOriginates(cfg: Config, i: nat, st: Progress)
    requires Arrives(cfg, i, st) && i < |cfg.entries|
    ensures var run := RunEntry(cfg, cfg.entries[i], st.next, st.bindings, st.cache);
      AllOriginate(cfg, Sequential(run.blocks), st.next, run.next)
  {
    hide RunEntry, StepsIn, Staffed, Originates, Arrives, JobAt;
    var c := Crew(cfg, cfg.entries[i], st.bindings, st.next);
    var run := RunEntry(cfg, cfg.entries[i], st.next, st.bindings, st.cache);
    EntryStaffed(c, st.cache);
    forall id: nat | st.next <= id < run.next ensures Originates(Project(Sequential(run.blocks), OfStep(id)), cfg, id) {
      StaffedOriginates(cfg, i, st, Project(Sequential(run.blocks), OfStep(id)), id);
    }
  }

  ghost predicate Sourced(st: Progress, cfg: Config) {
    AllOriginate(cfg, Sequential(st.blocks), 1, st.next)
  }

  lemma SoloOriginates(cfg: Config, blocks: seq<Block>, actions: seq<Action>, a: nat, b: nat, c: nat)
    requires AllOriginate(cfg, Sequential(blocks), a, b) && AllOriginate(cfg, actions, b, c)
    ensures AllOriginate(cfg, Sequential(blocks + [Solo(actions)]), a, c)
  {
    hide AllOriginate;
    SequentialSnoc(blocks, Solo(actions));
    OriginatesConcat(cfg, Sequential(blocks), actions, a, b, c);
  }

  lemma AdvanceSourced(cfg: Config, i: nat, st: Progress)
    requires Sourced(st, cfg) && Arrives(cfg, i, st) && i < |cfg.entries|
    ensures Sourced(Advance(st, cfg.entries[i], RunEntry(cfg, cfg.entries[i], st.next, st.bindings, st.cache)), cfg)
  {
    hide RunEntry, AllOriginate, Arrives;
    var run := RunEntry(cfg, cfg.entries[i], st.next, st.bindings, st.cache);
    EntryOriginates(cfg, i, st);
    SequentialConcat(st.blocks, run.blocks);
    OriginatesConcat(cfg, Sequential(st.blocks), Sequential(run.blocks), 1, st.next, run.next);
  }

  lemma ReplaySourced(cfg: Config, st: Progress, e: Entry, saved: Saved)
    requires Sourced(st, cfg)
    ensures Sourced(Replay(st, e, saved), cfg)
  {
    hide Whole, AllOriginate;
    var actions := ReplayActions(st.next, saved);
    ReplayWhole(st.next, saved);
    IdleOriginates(cfg, actions, st.next, true);
    SoloOriginates(cfg, st.blocks, actions, 1, st.next, st.next + 1);
  }

  lemma FinishSourced(cfg: Config, st: Progress, success: bool)
    requires Sourced(st, cfg)
    ensures Sourced(Finish(st, success).state, cfg)
  {
    hide AllOriginate;
    QuietOriginates(cfg, Emit(WorkflowFinished(success)), st.next);
    SoloOriginates(cfg, st.blocks, [Emit(WorkflowFinished(success))], 1, st.next, st.next);
  }

  lemma TurnSourced(cfg: Config, i: nat, st: Progress)
    requires i < |cfg.entries| && Sourced(st, cfg) && Arrives(cfg, i, st)
    ensures match TurnAt(cfg, i, st)
      case GoesOn(st') => Sourced(st', cfg)
      case Stops(r) => Sourced(r.state, cfg)
  {
    hide RunEntry, AllOriginate, Storable, Replay, Finish, Advance, Arrives;
    var e := cfg.entries[i];
    FinishSourced(cfg, st, false);
    if Replays(cfg, i) { ReplaySourced(cfg, st, e, cfg.checkpoint[i]); }
    var run := RunEntry(cfg, e, st.next, st.bindings, st.cache);
    var st1 := Advance(st, e, run);
    AdvanceSourced(cfg, i, st);
    FinishSourced(cfg, st1, false);
    if e.step.Single? && run.bound.Some? {
      QuietOriginates(cfg, Record(i, e.step.tool.name, run.bound.value), st1.next);
      SoloOriginates(cfg, st1.blocks, [Record(i, e.step.tool.name, run.bound.value)], 1, st1.next, st1.next);
    }
  }

  lemma {:induction false} RunSourced(cfg: Config, i: nat, st: Progress)
    requires Arrives(cfg, i, st) && Sourced(st, cfg)
    ensures i <= |cfg.entries| && Sourced(RunFrom(cfg, i, st).state, cfg)
    decreases |cfg.entries| - i
  {
    hide Sourced, TurnAt, Finish, Arrives;
    ArrivesWithin(cfg, i, st);
    if i == |cfg.entries| {
      FinishSourced(cfg, st, true);
    } else {
      TurnSourced(cfg, i, st);
      match TurnAt(cfg, i, st)
      case GoesOn(st') =>
        ArrivesNext(cfg, i, st);
        RunSourced(cfg, i + 1, st');
      case Stops(_) =>
    }
  }

  lemma StartSourced(cfg: Config)
    ensures Sourced(START, cfg)
  {
    SequentialOne(Solo([Emit(WorkflowStarted)]));
    QuietOriginates(cfg, Emit(WorkflowStarted), 1);
  }

  lemma RunIsSourced(cfg: Config)
    ensures Sourced(Run(cfg).state, cfg)
  {
    hide Sourced, Arrives;
    StartSourced(cfg);
    ArrivesStart(cfg);
    RunSourced(cfg, 0, START);
  }

  lemma SourcedOriginates(cfg: Config, st: Progress, id: nat)
    requires Sourced(st, cfg)
    ensures Originates(Project(Sequential(st.blocks), OfStep(id)), cfg, id)
  {
    hide WholeStep, HasJob, IsThreadOf;
  }

  /** On every schedule a step does its job, or enters nothing. */
  lemma StepOrigin(cfg: Config, l: seq<Action>, id: nat)
    requires Linearizes(l, Run(cfg).state.blocks)
    ensures Originates(Project(l, OfStep(id)), cfg, id)
  {
    hide Run, Originates, Separate, Sourced;
    RunIsOrderly(cfg);
    RunIsSourced(cfg);
    LinearizationProjects(l, Run(cfg).state.blocks, OfStep(id));
    SourcedOriginates(cfg, Run(cfg).state, id);
  }

  // ---------------------------------------------------------------- a step has one job

  lemma EntryAdvances(cfg: Config, e: Entry, next: nat, b: Bindings, cache: map<GroupId, seq<Value>>)
    ensures RunEntry(cfg, e, next, b, cache).next >= next
  {
    hide Part, Sequential;
    EntryStaffed(Crew(cfg, e, b, next), cache);
    PartAscends(Crew(cfg, e, b, next), Sequential(RunEntry(cfg, e, next, b, cache).blocks), next, RunEntry(cfg, e, next, b, cache).next);
  }

  lemma PartAscends(c: Crew, l: seq<Action>, from: nat, to: nat)
    requires Part(c, l, from, to)
    ensures from <= to
  {
  }

  /** The next entry starts where this one ends, replayed or not. */
  lemma TurnNext(cfg: Config, i: nat, st: Progress)
    requires i < |cfg.entries| && TurnAt(cfg, i, st).GoesOn?
    ensures TurnAt(cfg, i, st).state.next == RunEntry(cfg, cfg.entries[i], st.next, st.bindings, st.cache).next
  {
    hide ToolRun, Storable, RunParallel, RunVoters, RunReuse;
  }

  lemma {:induction false} LaterStarts(cfg: Config, i: nat, st: Progress, j: nat, later: Progress)
    requires Arrives(cfg, i, st) && Arrives(cfg, j, later) && i < j
    ensures RunEntry(cfg, cfg.entries[i], st.next, st.bindings, st.cache).next <= later.next
    decreases j
  {
    hide Arrives, TurnAt, RunEntry;
    ArrivesWithin(cfg, j, later);
    var before := ArrivesBefore(cfg, j, later);
    TurnNext(cfg, j - 1, before);
    if i < j - 1 {
      LaterStarts(cfg, i, st, j - 1, before);
      EntryAdvances(cfg, cfg.entries[j - 1], before.next, before.bindings, before.cache);
    } else {
      ArrivesOnce(cfg, i, st, before);
    }
  }

  lemma ArrivesOnce(cfg: Config, i: nat, st: Progress, other: Progress)
    requires Arrives(cfg, i, st) && Arrives(cfg, i, other)
    ensures st == other
  {
  }

  /** The run determines a step's job: no other entry, state or tool could be meant by it. */
  lemma OneJob(cfg: Config, id: nat, i: nat, st: Progress, job: Job, j: nat, other: Progress, job': Job)
    requires HasJob(cfg, id, i, st, job) && HasJob(cfg, id, j, other, job')
    ensures i == j && st == other && job == job'
  {
    hide Arrives, RunEntry, JobAt;
    if i < j {
      LaterStarts(cfg, i, st, j, other);
    } else if j < i {
      LaterStarts(cfg, j, other, i, st);
    } else {
      ArrivesOnce(cfg, i, st, other);
    }
  }
}
