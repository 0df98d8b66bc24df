/** What one entry's blocks contain: fan-in of outputs, and no checkpoint records. */
module EntryLaws {
  import opened Wrappers
  import opened Values
  import opened Runtime
  import opened Merges
  import opened Blocks
  import opened Measures
  import opened Workers
  import opened WorkerLaws
  import opened Plans
  import opened GroupLaws

  // ---------------------------------------------------------------- fan-in

  /** Every member's output is in the shared dict under its step id. */
  ghost predicate Sunk(sink: map<nat, Value>, first: nat, runs: seq<StepRun>) {
    forall k {:trigger runs[k]} | 0 <= k < |runs| && runs[k].output.Some? ::
      first + k in sink && sink[first + k] == runs[k].output.value
  }

  lemma FanIn(cfg: Config, tools: seq<Tool>, agent: Option<Agent>, first: nat, group: GroupId, b: Bindings, l: seq<Action>)
    requires IsMerge(l, Members(MemberRuns(cfg, tools, agent, first, group, b)))
    ensures Sunk(SinkOf(l), first, MemberRuns(cfg, tools, agent, first, group, b))
  {
    var runs := MemberRuns(cfg, tools, agent, first, group, b);
    forall k {:trigger runs[k]} | 0 <= k < |runs| && runs[k].output.Some?
      ensures first + k in SinkOf(l) && SinkOf(l)[first + k] == runs[k].output.value
    {
      GroupSink(cfg, tools, agent, first, group, b, l, k);
    }
  }

  // ---------------------------------------------------------------- who writes checkpoints

  /** Threads emit, call, write outputs and add cost; only the main loop writes checkpoints. */
  predicate NoRecords(l: seq<Action>) {
    forall i | 0 <= i < |l| :: !l[i].Record?
  }

  lemma AboutStepNoRecords(l: seq<Action>, id: nat)
    requires About(l, OfStep(id))
    ensures NoRecords(l)
  {
  }

  lemma ThreadsNoRecords(cfg: Config, tools: seq<Tool>, agent: Option<Agent>, first: nat, group: GroupId, b: Bindings)
    ensures forall k | 0 <= k < |tools| :: NoRecords(Members(MemberRuns(cfg, tools, agent, first, group, b))[k])
  {
    forall k | 0 <= k < |tools| ensures NoRecords(Members(MemberRuns(cfg, tools, agent, first, group, b))[k]) {
      MemberAbout(cfg, tools, agent, first, group, b, k);
      AboutStepNoRecords(Members(MemberRuns(cfg, tools, agent, first, group, b))[k], first + k);
    }
  }

  lemma DecisionNoRecords(name: string, id: nat, group: GroupId, error: string, value: Value, metadata: Option<map<string, Meta>>)
    ensures NoRecords(DecisionOpening(name, id, group))
    ensures NoRecords(DecisionRefused(name, id, group, error))
    ensures NoRecords(DecisionOpening(name, id, group) + DecisionRefused(name, id, group, error))
    ensures NoRecords(DecisionAgreed(name, id, group, value, metadata))
    ensures NoRecords(DecisionOpening(name, id, group) + DecisionAgreed(name, id, group, value, metadata))
  {
  }

  predicate Quiet(block: Block) {
    match block
    case Solo(actions) => NoRecords(actions)
    case Fork(members) => forall k | 0 <= k < |members| :: NoRecords(members[k])
  }

  predicate AllQuiet(blocks: seq<Block>) {
    forall i | 0 <= i < |blocks| :: Quiet(blocks[i])
  }

  lemma {:induction false} QuietRun(l: seq<Action>, blocks: seq<Block>)
    requires Linearizes(l, blocks) && AllQuiet(blocks)
    ensures NoRecords(l)
    decreases |blocks|
  {
    if blocks != [] {
      var before, during := LinearizesEnds(l, blocks);
      QuietRun(before, Init(blocks));
      assert Quiet(Last(blocks));
      if Last(blocks).Fork? {
        MergeElements(during, Last(blocks).members);
        forall i | 0 <= i < |during| ensures !during[i].Record? {
          assert during[i] in during;
          var k :| 0 <= k < |Last(blocks).members| && during[i] in Last(blocks).members[k];
        }
      }
    }
  }

  lemma ToolRunQuiet(policy: Policy, world: World, tool: Tool, agent: Option<Agent>, id: nat, group: Option<GroupId>,
                     b: Bindings, sink: bool)
    ensures NoRecords(ToolRun(policy, world, tool, agent, id, group, b, sink).actions)
  {
    hide ToolRun;
    ToolRunAbout(policy, world, tool, agent, id, group, b, sink);
    AboutStepNoRecords(ToolRun(policy, world, tool, agent, id, group, b, sink).actions, id);
  }

  lemma DecideQuiet(cfg: Config, step: Step, agent: Option<Agent>, votes: seq<Value>, id: nat, b: Bindings)
    requires step.Consensus?
    ensures NoRecords(Decide(cfg, step, agent, votes, id, b).actions)
  {
    hide ToolRun, DecisionOpening, DecisionRefused, DecisionAgreed;
    match step.strategy(id, votes)
    case Disagreed(e) => DecisionNoRecords(step.name, id, step.id, StrategyError(e), Null, None);
    case Agreed(value, metadata) =>
      DecisionNoRecords(step.name, id, step.id, "", value, metadata);
      if Triggers(step.fallback, metadata) {
        ToolRunQuiet(cfg.policy, cfg.world, step.fallback.value.tool, agent, id + 1, Some(step.id), b, false);
      }
  }

  /** Running an entry writes no checkpoint by itself. */
  lemma EntryQuiet(cfg: Config, e: Entry, next: nat, b: Bindings, cache: map<GroupId, seq<Value>>)
    ensures AllQuiet(RunEntry(cfg, e, next, b, cache).blocks)
  {
    hide ToolRun, Decide, MemberRuns, Members, NothingToReuse;
    match e.step
    case Single(tool) => ToolRunQuiet(cfg.policy, cfg.world, tool, e.agent, next, None, b, true);
    case Parallel(id, tools) => ThreadsNoRecords(cfg, tools, e.agent, next, id, b);
    case Consensus(id, tools, name, _, source, _) =>
      if source.None? {
        ThreadsNoRecords(cfg, tools, e.agent, next, id, b);
        var runs := MemberRuns(cfg, tools, e.agent, next, id, b);
        if AllSucceeded(runs) { DecideQuiet(cfg, e.step, e.agent, Outputs(runs), next + |runs|, b); }
      } else if source.value in cache {
        DecideQuiet(cfg, e.step, e.agent, cache[source.value], next, b);
      } else {
        DecisionNoRecords(name, next, id, NothingToReuse(e.step.source.value), Null, None);
      }
  }
}
