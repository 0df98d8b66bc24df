/**
 Nothing runs before its gates: on every trace of every schedule, a tool is entered only after its
 agent's capabilities and, where policy asks for it, an approval, and only as often as its retries allow.
 */
module GateLaws {
  import opened Wrappers
  import opened Values
  import opened Runtime
  import opened Merges
  import opened Blocks
  import opened Measures
  import opened Workers
  import opened WorkerLaws
  import opened Plans
  import opened GroupLaws
  import opened StepLaws
  import opened RunLaws
  import opened Journals
  import opened StepRecords
  import opened Outcomes
  import opened Jobs

  /** How often a tool may be entered after the first time. */
  function RetriesAllowed(tool: Tool): nat {
    if tool.idempotent then tool.retries else 0
  }

  // ---------------------------------------------------------------- one thread

  /** Everything that must have happened before a thread may enter its tool. */
  ghost predicate GatesPassed(before: seq<Action>, policy: Policy, tool: Tool, agent: Option<Agent>, id: nat, group: Option<GroupId>) {
    && Capable(tool, agent)
    && (tool.name in policy.approvalFor ==> Emit(ApprovalDecided(id, tool.name, true, group)) in before)
  }

  lemma {:induction false} AttemptsEnter(tool: Tool, id: nat, group: Option<GroupId>, b: Bindings, from: nat, k: nat)
    requires k < |Attempts(tool, id, group, b, from).0| && Attempts(tool, id, group, b, from).0[k].Execute?
    ensures var a := Attempts(tool, id, group, b, from).0[k];
      k == 2 * (a.attempt - from) && a.id == id && from <= a.attempt
      && (a.attempt <= from || (tool.idempotent && a.attempt <= tool.retries))
    decreases if from < tool.retries then tool.retries - from else 0
  {
    var l := Attempts(tool, id, group, b, from).0;
    if Retried(tool, id, b, from) && k > 0 {
      var rest := Attempts(tool, id, group, b, from + 1).0;
      assert l[2..] == rest;
      assert k != 1;
      assert l[k] == rest[k - 2];
      AttemptsEnter(tool, id, group, b, from + 1, k - 2);
    }
  }

  lemma GatesIdle(policy: Policy, world: World, tool: Tool, agent: Option<Agent>, id: nat, group: Option<GroupId>)
    ensures var (asked, refusal) := Gates(policy, world, tool, agent, id, group);
      Idle(asked) && (refusal.None? ==> GatesPassed(asked, policy, tool, agent, id, group))
  {
    hide CapabilityDenial, ApprovalDenial;
  }

  lemma EndingIdle(tool: Tool, id: nat, group: Option<GroupId>, b: Bindings, last: Attempt, sink: bool)
    ensures Idle(Ending(tool, id, group, b, last, sink))
  {
    hide ErrorText;
  }

  /** A call in a thread's list of actions: where it is, and what came before it. */
  lemma ToolRunEnters(policy: Policy, world: World, tool: Tool, agent: Option<Agent>, id: nat, group: Option<GroupId>,
                      b: Bindings, sink: bool, k: nat)
    requires var l := ToolRun(policy, world, tool, agent, id, group, b, sink).actions; k < |l| && l[k].Execute?
    ensures var l := ToolRun(policy, world, tool, agent, id, group, b, sink).actions;
      && GatesPassed(l[..k], policy, tool, agent, id, group)
      && l[k].id == id && l[k].attempt <= RetriesAllowed(tool)
      && (forall j | 0 <= j < |l| && l[j] == l[k] :: j == k)
  {
    hide Gates, Attempts, Ending, Opening, Capable;
    var l := ToolRun(policy, world, tool, agent, id, group, b, sink).actions;
    var opening := Opening(tool, id, group);
    var (asked, refusal) := Gates(policy, world, tool, agent, id, group);
    var (body, last) := Body(policy, world, tool, agent, id, group, b);
    var ending := Ending(tool, id, group, b, last, sink);
    GatesIdle(policy, world, tool, agent, id, group);
    EndingIdle(tool, id, group, b, last, sink);
    OpeningIdle(tool, id, group);
    var head := opening + asked;
    assert Idle(head) && Idle(ending);
    var attempts := if refusal.Some? then [] else Attempts(tool, id, group, b, 0).0;
    assert l == head + attempts + ending;
    CallInMiddle(head, attempts, ending, k);
    if refusal.None? {
      AttemptsEnter(tool, id, group, b, 0, k - |head|);
      forall j | 0 <= j < |l| && l[j] == l[k] ensures j == k {
        CallInMiddle(head, attempts, ending, j);
        AttemptsEnter(tool, id, group, b, 0, j - |head|);
      }
      if tool.name in policy.approvalFor {
        var a := Emit(ApprovalDecided(id, tool.name, true, group));
        assert a in asked;
        InPrefix(opening, asked, attempts + ending, a, k);
        assert l == opening + asked + (attempts + ending);
      }
    }
  }

  lemma OpeningIdle(tool: Tool, id: nat, group: Option<GroupId>)
    ensures Idle(Opening(tool, id, group))
  {
  }

  lemma CallInMiddle(a: seq<Action>, b: seq<Action>, c: seq<Action>, k: nat)
    requires Idle(a) && Idle(c) && k < |a + b + c| && (a + b + c)[k].Execute?
    ensures |a| <= k < |a| + |b| && (a + b + c)[k] == b[k - |a|]
  {
  }

  lemma InPrefix(a: seq<Action>, b: seq<Action>, c: seq<Action>, x: Action, k: nat)
    requires x in b && |a| + |b| <= k <= |a + b + c|
    ensures x in (a + b + c)[..k]
  {
    var i :| 0 <= i < |b| && b[i] == x;
    assert (a + b + c)[..k][|a| + i] == x;
  }

  // ---------------------------------------------------------------- every schedule of every run

  /** A call on a trace, seen from the step that makes it. */
  lemma CallSeenByStep(l: seq<Action>, n: nat)
    requires n < |l| && KeyOf(l[n]).OfStep?
    ensures var mine, k := Project(l, KeyOf(l[n])), |Project(l[..n], KeyOf(l[n]))|;
      k < |mine| && mine[k] == l[n] && mine[..k] == Project(l[..n], KeyOf(l[n]))
  {
    var key := KeyOf(l[n]);
    ProjectSnoc(l[..n], l[n], key);
    assert l[..n] + [l[n]] == l[..n + 1];
    ProjectPrefix(l, n + 1, key);
    ProjectPrefix(l, n, key);
  }

  lemma ProjectGrows(l: seq<Action>, n: nat, m: nat, key: Key)
    requires n < m <= |l| && KeyOf(l[n]) == key
    ensures |Project(l[..n], key)| < |Project(l[..m], key)|
  {
    ProjectSnoc(l[..n], l[n], key);
    assert l[..n] + [l[n]] == l[..m][..n + 1];
    ProjectPrefix(l[..m], n + 1, key);
  }

  /** A call and everything before it, against the job of the step that makes it. */
  ghost predicate Cleared(cfg: Config, before: seq<Action>, a: Action, i: nat, st: Progress, job: Job)
    requires a.Execute?
  {
    && HasJob(cfg, a.id, i, st, job)
    && Emit(StepStarted(a.id, job.tool.name, job.group, false)) in before
    && GatesPassed(before, cfg.policy, job.tool, job.agent, a.id, job.group)
    && a.attempt <= RetriesAllowed(job.tool)
  }

  lemma ThreadOpens(policy: Policy, world: World, job: Job, id: nat, sink: bool)
    ensures var l := ToolRun(policy, world, job.tool, job.agent, id, job.group, job.bindings, sink).actions;
      l != [] && l[0] == Emit(StepStarted(id, job.tool.name, job.group, false))
  {
    hide Body, Ending;
  }

  /** Within one step: a call is cleared by what the step did before, and made once. */
  lemma OriginEnters(mine: seq<Action>, cfg: Config, id: nat, k: nat)
    requires Originates(mine, cfg, id) && k < |mine| && mine[k].Execute?
    ensures mine[k].id == id && exists i, st, job :: Cleared(cfg, mine[..k], mine[k], i, st, job)
    ensures forall j | 0 <= j < |mine| && mine[j] == mine[k] :: j == k
  {
    hide ToolRun, GatesPassed, HasJob;
    assert !IsIdle(mine[k]);
    var i, st, job :| HasJob(cfg, id, i, st, job) && IsThreadOf(mine, cfg, id, job);
    var sink :| mine == ToolRun(cfg.policy, cfg.world, job.tool, job.agent, id, job.group, job.bindings, sink).actions;
    ToolRunEnters(cfg.policy, cfg.world, job.tool, job.agent, id, job.group, job.bindings, sink, k);
    ThreadOpens(cfg.policy, cfg.world, job, id, sink);
    assert mine[..k][0] == mine[0];
    assert Cleared(cfg, mine[..k], mine[k], i, st, job);
  }

  /**
   Gate safety.  Wherever a trace of any schedule of any run enters a tool, the step has a job (by `OneJob`
   only one) and has started it; that job's agent, if any, holds every capability its tool demands; an
   approval was given for this very step before, if policy asks for one for that tool; and the attempt is
   within that tool's retries.
   */
  lemma GateSafety(cfg: Config, l: seq<Action>, n: nat)
    requires Linearizes(l, Run(cfg).state.blocks) && n < |l| && l[n].Execute?
    ensures exists i, st, job :: Cleared(cfg, l[..n], l[n], i, st, job)
  {
    hide Run, Capable, Originates, HasJob;
    var key := KeyOf(l[n]);
    StepOrigin(cfg, l, key.id);
    CallSeenByStep(l, n);
    var mine, k := Project(l, key), |Project(l[..n], key)|;
    OriginEnters(mine, cfg, key.id, k);
    var i, st, job :| Cleared(cfg, mine[..k], mine[k], i, st, job);
    ProjectElements(l[..n], key);
    assert Cleared(cfg, l[..n], l[n], i, st, job);
  }

  /** No call is ever made twice. */
  lemma CallsAreDistinct(cfg: Config, l: seq<Action>, n: nat, m: nat)
    requires Linearizes(l, Run(cfg).state.blocks) && n < m < |l| && l[n].Execute?
    ensures l[n] != l[m]
  {
    hide Run, Originates, Cleared;
    if l[n] == l[m] {
      var key := KeyOf(l[n]);
      StepOrigin(cfg, l, key.id);
      CallSeenByStep(l, n);
      CallSeenByStep(l, m);
      var mine, j, k := Project(l, key), |Project(l[..n], key)|, |Project(l[..m], key)|;
      ProjectGrows(l, n, m, key);
      OriginEnters(mine, cfg, key.id, k);
      assert false;
    }
  }

  // ---------------------------------------------------------------- how often

  /** The calls a trace makes as this step. */
  function CallCount(l: seq<Action>, id: nat): nat {
    if l == [] then 0 else CallCount(Init(l), id) + if Last(l).Execute? && Last(l).id == id then 1 else 0
  }

  lemma CallCountSnoc(l: seq<Action>, a: Action, id: nat)
    ensures CallCount(l + [a], id) == CallCount(l, id) + if a.Execute? && a.id == id then 1 else 0
  {
    assert Init(l + [a]) == l;
  }

  lemma {:induction false} CallCountConcat(l: seq<Action>, m: seq<Action>, id: nat)
    ensures CallCount(l + m, id) == CallCount(l, id) + CallCount(m, id)
    decreases |m|
  {
    if m == [] {
      assert l + m == l;
    } else {
      CallCountConcat(l, Init(m), id);
      assert Init(l + m) == l + Init(m);
    }
  }

  lemma {:induction false} CallCountProjected(l: seq<Action>, id: nat)
    ensures CallCount(l, id) == CallCount(Project(l, OfStep(id)), id)
    decreases |l|
  {
    if l != [] {
      CallCountProjected(Init(l), id);
      var before, a := Project(Init(l), OfStep(id)), Last(l);
      if KeyOf(a) == OfStep(id) {
        CallCountSnoc(before, a, id);
      } else {
        assert Project(l, OfStep(id)) == before;
      }
    }
  }

  lemma {:induction false} IdleCallsNothing(l: seq<Action>, id: nat)
    requires Idle(l)
    ensures CallCount(l, id) == 0
    decreases |l|
  {
    if l != [] {
      IdleCallsNothing(Init(l), id);
      assert IsIdle(Last(l));
    }
  }

  lemma {:induction false} AttemptsCount(tool: Tool, id: nat, group: Option<GroupId>, b: Bindings, from: nat)
    ensures CallCount(Attempts(tool, id, group, b, from).0, id) == Tries(tool, id, b, from)
    decreases if from < tool.retries then tool.retries - from else 0
  {
    if Retried(tool, id, b, from) {
      AttemptsCount(tool, id, group, b, from + 1);
      var retry := Emit(RetryAttempted(id, tool.name, from + 1, tool.execute(id, b, from).exn.message, group));
      CallCountConcat([Execute(id, from), retry], Attempts(tool, id, group, b, from + 1).0, id);
      CallCountSnoc([Execute(id, from)], retry, id);
      CallCountSnoc([], Execute(id, from), id);
      assert [] + [Execute(id, from)] == [Execute(id, from)] && [Execute(id, from)] + [retry] == [Execute(id, from), retry];
    } else {
      CallCountSnoc([], Execute(id, from), id);
      assert [] + [Execute(id, from)] == [Execute(id, from)];
    }
  }

  lemma GatesDecide(policy: Policy, world: World, tool: Tool, agent: Option<Agent>, id: nat, group: Option<GroupId>)
    ensures Gates(policy, world, tool, agent, id, group).1.None? <==> Enters(policy, world, tool, agent, id)
  {
    hide CapabilityDenial, ApprovalDenial;
  }

  /** A job's thread enters its tool as often as it is tried, or never where a gate refuses. */
  lemma ToolRunCalls(policy: Policy, world: World, job: Job, id: nat, sink: bool)
    ensures CallCount(ToolRun(policy, world, job.tool, job.agent, id, job.group, job.bindings, sink).actions, id) ==
      if Enters(policy, world, job.tool, job.agent, id) then Tries(job.tool, id, job.bindings, 0) else 0
  {
    hide Gates, Ending, Opening, Idle, GatesPassed, CallCount, Enters, Tries;
    var tool, group, b := job.tool, job.group, job.bindings;
    var (asked, refusal) := Gates(policy, world, tool, job.agent, id, group);
    var (body, last) := Body(policy, world, tool, job.agent, id, group, b);
    var ending := Ending(tool, id, group, b, last, sink);
    GatesIdle(policy, world, tool, job.agent, id, group);
    EndingIdle(tool, id, group, b, last, sink);
    OpeningIdle(tool, id, group);
    GatesDecide(policy, world, tool, job.agent, id, group);
    IdleCallsNothing(asked, id);
    IdleCallsNothing(ending, id);
    IdleCallsNothing(Opening(tool, id, group), id);
    if refusal.None? {
      AttemptsCount(tool, id, group, b, 0);
      CallCountConcat(asked, Attempts(tool, id, group, b, 0).0, id);
    }
    CallCountConcat(Opening(tool, id, group), body, id);
    CallCountConcat(Opening(tool, id, group) + body, ending, id);
  }

  lemma {:induction false} TriesBounded(tool: Tool, id: nat, b: Bindings, from: nat)
    ensures Tries(tool, id, b, from) >= 1
    ensures Tries(tool, id, b, from) > 1 ==> tool.idempotent && from + Tries(tool, id, b, from) - 1 <= tool.retries
    decreases if from < tool.retries then tool.retries - from else 0
  {
    if Retried(tool, id, b, from) { TriesBounded(tool, id, b, from + 1); }
  }

  /** The calls of a step, counted against its job. */
  ghost predicate CalledAs(cfg: Config, id: nat, calls: nat, i: nat, st: Progress, job: Job) {
    && HasJob(cfg, id, i, st, job)
    && calls == (if Enters(cfg.policy, cfg.world, job.tool, job.agent, id) then Tries(job.tool, id, job.bindings, 0) else 0)
    && calls <= 1 + RetriesAllowed(job.tool)
  }

  /**
   How often.  On every schedule of every run a step that makes calls makes as many as its own tool is
   tried, none if a gate refuses, and never more than 1 + the retries its tool allows.
   */
  lemma CallsWithinRetries(cfg: Config, l: seq<Action>, id: nat)
    requires Linearizes(l, Run(cfg).state.blocks) && CallCount(l, id) > 0
    ensures exists i, st, job :: CalledAs(cfg, id, CallCount(l, id), i, st, job)
  {
    hide Run, HasJob, Enters, Idle;
    var mine := Project(l, OfStep(id));
    StepOrigin(cfg, l, id);
    CallCountProjected(l, id);
    if Idle(mine) {
      IdleCallsNothing(mine, id);
    } else {
      var i, st, job :| HasJob(cfg, id, i, st, job) && IsThreadOf(mine, cfg, id, job);
      var sink :| mine == ToolRun(cfg.policy, cfg.world, job.tool, job.agent, id, job.group, job.bindings, sink).actions;
      ToolRunCalls(cfg.policy, cfg.world, job, id, sink);
      TriesBounded(job.tool, id, job.bindings, 0);
      assert CalledAs(cfg, id, CallCount(l, id), i, st, job);
    }
  }

  // ---------------------------------------------------------------- retries in the journal

  lemma {:induction false} IdleView(l: seq<Action>)
    requires Idle(l)
    ensures ViewOf(l).Some? ==> ViewOf(l).value.retries == |ViewOf(l).value.retryErrors| == 0
    decreases |l|
  {
    if l != [] {
      IdleView(Init(l));
      assert IsIdle(Last(l));
    }
  }

  /** The record's retries are those of the step's own job: one fewer than its calls. */
  ghost predicate RecordedAs(cfg: Config, r: StepRecord, i: nat, st: Progress, job: Job) {
    && HasJob(cfg, r.id, i, st, job) && r.tool == job.tool.name && r.group == job.group
    && Enters(cfg.policy, cfg.world, job.tool, job.agent, r.id)
    && r.retries == Tries(job.tool, r.id, job.bindings, 0) - 1 <= RetriesAllowed(job.tool)
  }

  ghost predicate RetriesAddUp(cfg: Config, r: StepRecord) {
    r.retries == |r.retryErrors| && (r.retries > 0 ==> exists i, st, job :: RecordedAs(cfg, r, i, st, job))
  }

  lemma OriginRecord(mine: seq<Action>, cfg: Config, id: nat)
    requires Originates(mine, cfg, id) && ViewOf(mine).Some?
    ensures RetriesAddUp(cfg, ViewOf(mine).value)
  {
    hide ToolRun, Idle, HasJob, Enters, Asks;
    if Idle(mine) {
      IdleView(mine);
    } else {
      var i, st, job :| HasJob(cfg, id, i, st, job) && IsThreadOf(mine, cfg, id, job);
      var sink :| mine == ToolRun(cfg.policy, cfg.world, job.tool, job.agent, id, job.group, job.bindings, sink).actions;
      ToolRunRecorded(cfg.policy, cfg.world, job.tool, job.agent, id, job.group, job.bindings, sink);
      TriesBounded(job.tool, id, job.bindings, 0);
      if ViewOf(mine).value.retries > 0 { assert RecordedAs(cfg, ViewOf(mine).value, i, st, job); }
    }
  }

  /** On every schedule of every run: one error per retry, and as many retries as the step's own tool had. */
  lemma JournalRetriesAddUp(cfg: Config, l: seq<Action>, id: nat)
    requires Linearizes(l, Run(cfg).state.blocks) && StepRecordOf(JournalOf(l), id).Some?
    ensures RetriesAddUp(cfg, StepRecordOf(JournalOf(l), id).value)
  {
    hide Run, RetriesAddUp, Originates, JournalOf, StepRecordOf;
    StepOrigin(cfg, l, id);
    RecordIsView(l, id);
    OriginRecord(Project(l, OfStep(id)), cfg, id);
  }
}
