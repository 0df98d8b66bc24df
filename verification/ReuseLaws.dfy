/**
 Result reuse.  In a workflow the builder made, a consensus over an earlier parallel block always finds
 that block's outputs; and reducing them does what running the voters again would have done.
 */
module ReuseLaws {
  import opened Wrappers
  import opened Values
  import opened Runtime
  import opened Merges
  import opened Blocks
  import opened Measures
  import opened Workers
  import opened WorkerLaws
  import opened Plans
  import opened GroupLaws
  import opened RunLaws
  import opened Outcomes
  import opened Resume
  import opened Workflows

  // ---------------------------------------------------------------- outputs are there

  /** Every parallel block passed so far has its outputs cached. */
  ghost predicate CachedUpTo(entries: seq<Entry>, i: nat, st: Progress) {
    && i <= |entries| && |st.outputs| == i
    && forall j | 0 <= j < i && entries[j].step.Parallel? ::
         entries[j].step.id in st.cache && st.cache[entries[j].step.id] == st.outputs[j]
  }

  lemma ParallelCaches(cfg: Config, e: Entry, next: nat, b: Bindings, cache: map<GroupId, seq<Value>>)
    requires e.step.Parallel?
    ensures var run := RunEntry(cfg, e, next, b, cache); run.ok ==> run.cached == Some(run.outputs)
  {
    hide MemberRuns;
  }

  /** What a turn that goes on does to the cache and the outputs. */
  lemma TurnCaches(cfg: Config, i: nat, st: Progress)
    requires i < |cfg.entries| && TurnAt(cfg, i, st).GoesOn?
    ensures var st' := TurnAt(cfg, i, st).state;
      && |st'.outputs| == |st.outputs| + 1 && st.outputs <= st'.outputs
      && st'.cache == if cfg.entries[i].step.Parallel? then st.cache[cfg.entries[i].step.id := st'.outputs[|st.outputs|]] else st.cache
  {
    hide RunEntry, Storable, Measure;
    var e := cfg.entries[i];
    if e.step.Parallel? { ParallelCaches(cfg, e, st.next, st.bindings, st.cache); }
  }

  lemma CacheGrows(entries: seq<Entry>, i: nat, st: Progress, st': Progress)
    requires WellBuilt(entries) && i < |entries| && CachedUpTo(entries, i, st)
    requires |st'.outputs| == i + 1 && st.outputs <= st'.outputs
    requires st'.cache == if entries[i].step.Parallel? then st.cache[entries[i].step.id := st'.outputs[i]] else st.cache
    ensures CachedUpTo(entries, i + 1, st')
  {
    hide EntryBuilt;
    forall j | 0 <= j < i + 1 && entries[j].step.Parallel?
      ensures entries[j].step.id in st'.cache && st'.cache[entries[j].step.id] == st'.outputs[j]
    {
      if j < i { assert st'.outputs[j] == st.outputs[j]; }
    }
  }

  lemma {:induction false} ArrivesCached(cfg: Config, i: nat, st: Progress)
    requires WellBuilt(cfg.entries) && Arrives(cfg, i, st)
    ensures CachedUpTo(cfg.entries, i, st)
    decreases i
  {
    hide WellBuilt, TurnAt, CachedUpTo, Arrives;
    ArrivesWithin(cfg, i, st);
    if i == 0 {
      ArrivesAtStart(cfg, st);
      NothingCached(cfg.entries);
    } else {
      var before := ArrivesBefore(cfg, i, st);
      ArrivesCached(cfg, i - 1, before);
      ArrivesOrderly(cfg, i - 1, before);
      TurnCaches(cfg, i - 1, before);
      CacheGrows(cfg.entries, i - 1, before, st);
    }
  }

  lemma NothingCached(entries: seq<Entry>)
    ensures CachedUpTo(entries, 0, START)
  {
  }

  /** A consensus that reuses a block is only ever reached with that block's outputs to reduce. */
  lemma ReuseFindsOutputs(cfg: Config, i: nat, st: Progress)
    requires WellBuilt(cfg.entries) && Arrives(cfg, i, st) && i < |cfg.entries|
    requires cfg.entries[i].step.Consensus? && cfg.entries[i].step.source.Some?
    ensures var step := cfg.entries[i].step;
      && step.source.value in st.cache
      && exists j :: 0 <= j < i && j < |st.outputs| && cfg.entries[j].step == Parallel(step.source.value, step.tools)
           && st.cache[step.source.value] == st.outputs[j]
  {
    hide TurnAt, Arrives;
    ArrivesCached(cfg, i, st);
    var step := cfg.entries[i].step;
    assert EntryBuilt(cfg.entries, i);
    var j :| 0 <= j < i && j < |cfg.entries| && cfg.entries[j].step == Parallel(step.source.value, step.tools);
  }

  // ---------------------------------------------------------------- reuse and running again

  /** What the same members give under another group id. */
  lemma OutputsWhateverGroup(cfg: Config, tools: seq<Tool>, agent: Option<Agent>, first: nat, g: GroupId, h: GroupId, b: Bindings, k: nat)
    requires k < |tools|
    ensures MemberRuns(cfg, tools, agent, first, g, b)[k].output == MemberRuns(cfg, tools, agent, first, h, b)[k].output
    ensures Calls(MemberRuns(cfg, tools, agent, first, g, b)[k].actions) == Calls(MemberRuns(cfg, tools, agent, first, h, b)[k].actions)
  {
    hide ToolRun;
    ToolRunWhateverGroup(cfg, tools[k], agent, first + k, Some(g), Some(h), b, true);
  }

  function CallList(l: seq<Action>): seq<Action> {
    if l == [] then [] else CallList(Init(l)) + if Last(l).Execute? then [Last(l)] else []
  }

  /** The calls of tools in a trace. */
  function Calls(l: seq<Action>): seq<Action> {
    CallList(l)
  }

  lemma {:induction false} CallsConcat(l: seq<Action>, m: seq<Action>)
    ensures Calls(l + m) == Calls(l) + Calls(m)
    decreases |m|
  {
    if m == [] {
      assert l + m == l;
    } else {
      CallsConcat(l, Init(m));
      assert Init(l + m) == l + Init(m);
    }
  }

  predicate NoCalls(l: seq<Action>) {
    forall i | 0 <= i < |l| :: !l[i].Execute?
  }

  lemma {:induction false} CallsNone(l: seq<Action>)
    requires NoCalls(l)
    ensures Calls(l) == []
    decreases |l|
  {
    if l != [] { CallsNone(Init(l)); }
  }

  lemma CallsPair(a: Action, b: Action)
    requires a.Execute? && !b.Execute?
    ensures Calls([a, b]) == [a] && Calls([a]) == [a]
  {
    assert Init([a]) == [] && CallList([a]) == CallList([]) + [a];
    assert Init([a, b]) == [a];
  }

  lemma {:induction false} AttemptsWhateverGroup(tool: Tool, id: nat, g: Option<GroupId>, h: Option<GroupId>, b: Bindings, from: nat)
    ensures Attempts(tool, id, g, b, from).1 == Attempts(tool, id, h, b, from).1
    ensures Calls(Attempts(tool, id, g, b, from).0) == Calls(Attempts(tool, id, h, b, from).0)
    decreases if from < tool.retries then tool.retries - from else 0
  {
    if Retried(tool, id, b, from) {
      var a := Execute(id, from);
      var text := tool.execute(id, b, from).exn.message;
      var rg, rh := Emit(RetryAttempted(id, tool.name, from + 1, text, g)), Emit(RetryAttempted(id, tool.name, from + 1, text, h));
      AttemptsWhateverGroup(tool, id, g, h, b, from + 1);
      CallsConcat([a, rg], Attempts(tool, id, g, b, from + 1).0);
      CallsConcat([a, rh], Attempts(tool, id, h, b, from + 1).0);
      CallsPair(a, rg);
      CallsPair(a, rh);
    }
  }

  lemma QuietParts(cfg: Config, tool: Tool, agent: Option<Agent>, id: nat, g: Option<GroupId>, b: Bindings, last: Attempt, sink: bool)
    ensures NoCalls(Opening(tool, id, g)) && NoCalls(Gates(cfg.policy, cfg.world, tool, agent, id, g).0)
    ensures NoCalls(Ending(tool, id, g, b, last, sink))
  {
    hide ErrorText, CapabilityDenial, ApprovalDenial, LacksCapability;
  }

  lemma RunCalls(cfg: Config, tool: Tool, agent: Option<Agent>, id: nat, g: Option<GroupId>, b: Bindings, sink: bool)
    ensures var refusal := Gates(cfg.policy, cfg.world, tool, agent, id, g).1;
      Calls(ToolRun(cfg.policy, cfg.world, tool, agent, id, g, b, sink).actions) ==
        if refusal.Some? then [] else Calls(Attempts(tool, id, g, b, 0).0)
  {
    hide Opening, Gates, Ending, Calls;
    var (asked, refusal) := Gates(cfg.policy, cfg.world, tool, agent, id, g);
    var (body, last) := Body(cfg.policy, cfg.world, tool, agent, id, g, b);
    var opening, ending := Opening(tool, id, g), Ending(tool, id, g, b, last, sink);
    QuietParts(cfg, tool, agent, id, g, b, last, sink);
    CallsNone(opening);
    CallsNone(asked);
    CallsNone(ending);
    CallsConcat(opening, body);
    CallsConcat(opening + body, ending);
    if refusal.None? { CallsConcat(asked, Attempts(tool, id, g, b, 0).0); }
  }

  /** The group a step is tagged with changes neither its calls nor its output. */
  lemma ToolRunWhateverGroup(cfg: Config, tool: Tool, agent: Option<Agent>, id: nat, g: Option<GroupId>, h: Option<GroupId>, b: Bindings, sink: bool)
    ensures var x, y := ToolRun(cfg.policy, cfg.world, tool, agent, id, g, b, sink), ToolRun(cfg.policy, cfg.world, tool, agent, id, h, b, sink);
      x.output == y.output && Calls(x.actions) == Calls(y.actions)
  {
    hide Opening, Ending, CapabilityDenial, ApprovalDenial, LacksCapability, Calls;
    AttemptsWhateverGroup(tool, id, g, h, b, 0);
    RunCalls(cfg, tool, agent, id, g, b, sink);
    RunCalls(cfg, tool, agent, id, h, b, sink);
  }

  lemma {:induction false} FlattenCalls(a: seq<seq<Action>>, b: seq<seq<Action>>)
    requires |a| == |b| && forall k | 0 <= k < |a| :: Calls(a[k]) == Calls(b[k])
    ensures Calls(Flatten(a)) == Calls(Flatten(b))
    decreases |a|
  {
    hide Calls;
    if a != [] {
      FlattenCalls(Init(a), Init(b));
      CallsConcat(Flatten(Init(a)), Last(a));
      CallsConcat(Flatten(Init(b)), Last(b));
    }
  }

  lemma MembersWhateverGroup(cfg: Config, tools: seq<Tool>, agent: Option<Agent>, first: nat, g: GroupId, h: GroupId, b: Bindings)
    ensures var x, y := MemberRuns(cfg, tools, agent, first, g, b), MemberRuns(cfg, tools, agent, first, h, b);
      && AllSucceeded(x) == AllSucceeded(y)
      && (AllSucceeded(x) ==> Outputs(x) == Outputs(y))
      && Calls(Flatten(Members(x))) == Calls(Flatten(Members(y)))
  {
    hide ToolRun;
    var x, y := MemberRuns(cfg, tools, agent, first, g, b), MemberRuns(cfg, tools, agent, first, h, b);
    forall k | 0 <= k < |tools| ensures x[k].output == y[k].output && Calls(Members(x)[k]) == Calls(Members(y)[k]) {
      OutputsWhateverGroup(cfg, tools, agent, first, g, h, b, k);
    }
    FlattenCalls(Members(x), Members(y));
    if AllSucceeded(x) {
      forall k | 0 <= k < |tools| ensures y[k].output.Some? { assert x[k].output.Some?; }
      assert Outputs(x) == Outputs(y);
    }
    if AllSucceeded(y) {
      forall k | 0 <= k < |tools| ensures x[k].output.Some? { assert y[k].output.Some?; }
    }
  }

  /** parallel(tools).consensus(...) and consensus(tools, ...), as entries. */
  ghost predicate Alternatives(p: Entry, r: Entry, v: Entry) {
    && p.step.Parallel? && r.step.Consensus? && v.step.Consensus?
    && r.step == v.step.(source := Some(p.step.id)) && v.step.source.None? && v.step.tools == p.step.tools
    && p.agent == v.agent == r.agent && r.asName == v.asName && p.asName.None?
  }

  lemma OpenCloseNoCalls(step: Step, ok: bool)
    requires !step.Single?
    ensures NoCalls(InOrder(Opened(step))) && NoCalls(InOrder(Closed(step, ok)))
  {
  }

  lemma ThreeCalls(a: Block, b: Block, c: Block)
    requires NoCalls(InOrder(a)) && NoCalls(InOrder(c))
    ensures Calls(Sequential([a, b, c])) == Calls(InOrder(b))
  {
    hide Calls, InOrder;
    SequentialThree(a, b, c);
    CallsConcat(InOrder(a), InOrder(b));
    CallsConcat(InOrder(a) + InOrder(b), InOrder(c));
    CallsNone(InOrder(a));
    CallsNone(InOrder(c));
  }

  lemma FourCalls(a: Block, b: Block, c: Block, d: Block)
    requires NoCalls(InOrder(a)) && NoCalls(InOrder(d))
    ensures Calls(Sequential([a, b, c, d])) == Calls(InOrder(b)) + Calls(InOrder(c))
  {
    hide Calls, InOrder;
    SequentialFour(a, b, c, d);
    CallsConcat(InOrder(a), InOrder(b));
    CallsConcat(InOrder(a) + InOrder(b), InOrder(c));
    CallsConcat(InOrder(a) + InOrder(b) + InOrder(c), InOrder(d));
    CallsNone(InOrder(a));
    CallsNone(InOrder(d));
  }

  lemma ParallelCalls(cfg: Config, p: Entry, next: nat, b: Bindings)
    requires p.step.Parallel?
    ensures var x := MemberRuns(cfg, p.step.tools, p.agent, next, p.step.id, b);
      Calls(Sequential(RunParallel(cfg, p, next, b).blocks)) == Calls(Flatten(Members(x)))
  {
    hide MemberRuns, Members, Opened, Closed, Calls;
    var x := MemberRuns(cfg, p.step.tools, p.agent, next, p.step.id, b);
    OpenCloseNoCalls(p.step, AllSucceeded(x));
    ThreeCalls(Opened(p.step), Fork(Members(x)), Closed(p.step, AllSucceeded(x)));
  }

  lemma VotersCalls(cfg: Config, v: Entry, next: nat, b: Bindings)
    requires v.step.Consensus? && v.step.source.None?
    ensures var y := MemberRuns(cfg, v.step.tools, v.agent, next, v.step.id, b);
      Calls(Sequential(RunVoters(cfg, v, next, b).blocks)) ==
        Calls(Flatten(Members(y)))
        + if AllSucceeded(y) then Calls(Decide(cfg, v.step, v.agent, Outputs(y), next + |y|, b).actions) else []
  {
    hide MemberRuns, Members, Opened, Closed, Decide, Calls;
    var y := MemberRuns(cfg, v.step.tools, v.agent, next, v.step.id, b);
    if AllSucceeded(y) {
      var d := Decide(cfg, v.step, v.agent, Outputs(y), next + |y|, b);
      OpenCloseNoCalls(v.step, d.ok);
      FourCalls(Opened(v.step), Fork(Members(y)), Solo(d.actions), Closed(v.step, d.ok));
    } else {
      OpenCloseNoCalls(v.step, false);
      ThreeCalls(Opened(v.step), Fork(Members(y)), Closed(v.step, false));
      assert Calls(Flatten(Members(y))) + [] == Calls(Flatten(Members(y)));
    }
  }

  lemma ReuseCalls(cfg: Config, r: Entry, next: nat, b: Bindings, cache: map<GroupId, seq<Value>>)
    requires r.step.Consensus? && r.step.source.Some? && r.step.source.value in cache
    ensures Calls(Sequential(RunReuse(cfg, r, next, b, cache).blocks)) ==
      Calls(Decide(cfg, r.step, r.agent, cache[r.step.source.value], next, b).actions)
  {
    hide Opened, Closed, Decide, Calls;
    var d := Decide(cfg, r.step, r.agent, cache[r.step.source.value], next, b);
    OpenCloseNoCalls(r.step, d.ok);
    ThreeCalls(Opened(r.step), Solo(d.actions), Closed(r.step, d.ok));
  }

  /** The same success, agreed value, next id and outputs, whichever way the votes were come by. */
  lemma ReuseAgrees(cfg: Config, p: Entry, r: Entry, v: Entry, next: nat, b: Bindings, cache: map<GroupId, seq<Value>>)
    requires Alternatives(p, r, v)
    ensures var first, again := RunParallel(cfg, p, next, b), RunVoters(cfg, v, next, b);
      if first.ok then
        var second := RunReuse(cfg, r, first.next, b, cache[p.step.id := first.outputs]);
        && second.ok == again.ok && second.bound == again.bound && second.next == again.next
        && first.outputs + second.outputs == again.outputs
      else !again.ok && again.next == first.next
  {
    hide MemberRuns, Members, Opened, Closed, Decide;
    MembersWhateverGroup(cfg, p.step.tools, p.agent, next, p.step.id, v.step.id, b);
    var y := MemberRuns(cfg, p.step.tools, p.agent, next, v.step.id, b);
    if AllSucceeded(y) { DecideWhateverSource(cfg, v.step, r.step, v.agent, Outputs(y), next + |y|, b); }
  }

  /** The same calls. */
  lemma ReuseCallsAgree(cfg: Config, p: Entry, r: Entry, v: Entry, next: nat, b: Bindings, cache: map<GroupId, seq<Value>>)
    requires Alternatives(p, r, v)
    ensures var first, again := RunParallel(cfg, p, next, b), RunVoters(cfg, v, next, b);
      if first.ok then
        var second := RunReuse(cfg, r, first.next, b, cache[p.step.id := first.outputs]);
        Calls(Sequential(first.blocks)) + Calls(Sequential(second.blocks)) == Calls(Sequential(again.blocks))
      else Calls(Sequential(first.blocks)) == Calls(Sequential(again.blocks))
  {
    hide RunVoters, RunReuse, MemberRuns, Members, Opened, Closed, Decide, Calls, AllSucceeded, Outputs;
    MembersWhateverGroup(cfg, p.step.tools, p.agent, next, p.step.id, v.step.id, b);
    var first := RunParallel(cfg, p, next, b);
    var y := MemberRuns(cfg, p.step.tools, p.agent, next, v.step.id, b);
    ParallelCalls(cfg, p, next, b);
    VotersCalls(cfg, v, next, b);
    if first.ok {
      ReuseCalls(cfg, r, first.next, b, cache[p.step.id := first.outputs]);
      DecideWhateverSource(cfg, v.step, r.step, v.agent, Outputs(y), next + |y|, b);
    } else {
      assert Calls(Flatten(Members(y))) + [] == Calls(Flatten(Members(y)));
    }
  }

  /**
   Reuse refines running again.  From any state, the block and then the consensus over it end like the
   consensus that runs its own voters: same success, same agreed value, same next step id; and they
   make exactly its tool calls, every voter's once.
   */
  lemma ReuseRefinesRerunning(cfg: Config, p: Entry, r: Entry, v: Entry, next: nat, b: Bindings, cache: map<GroupId, seq<Value>>)
    requires Alternatives(p, r, v)
    ensures var first := RunEntry(cfg, p, next, b, cache);
      var again := RunEntry(cfg, v, next, b, cache);
      if first.ok then
        var second := RunEntry(cfg, r, first.next, b, CacheAfter(cache, p, first));
        && second.ok == again.ok && second.bound == again.bound && second.next == again.next
        && first.outputs + second.outputs == again.outputs
        && Calls(Sequential(first.blocks)) + Calls(Sequential(second.blocks)) == Calls(Sequential(again.blocks))
      else !again.ok && again.next == first.next && Calls(Sequential(first.blocks)) == Calls(Sequential(again.blocks))
  {
    ParallelCaches(cfg, p, next, b, cache);
    hide RunParallel, RunVoters, RunReuse;
    ReuseAgrees(cfg, p, r, v, next, b, cache);
    ReuseCallsAgree(cfg, p, r, v, next, b, cache);
  }

  lemma DecideWhateverSource(cfg: Config, s: Step, t: Step, agent: Option<Agent>, votes: seq<Value>, id: nat, b: Bindings)
    requires s.Consensus? && t.Consensus? && t == s.(source := t.source)
    ensures Decide(cfg, s, agent, votes, id, b) == Decide(cfg, t, agent, votes, id, b)
  {
    hide ToolRun, DecisionOpening, DecisionAgreed, DecisionRefused;
  }

  // ---------------------------------------------------------------- over whole runs

  /** The same but for what is cached under g. */
  ghost predicate Alike(a: Progress, b: Progress, g: GroupId) {
    && a.next == b.next && a.bindings == b.bindings
    && forall h | h != g :: (h in a.cache <==> h in b.cache) && (h in a.cache ==> a.cache[h] == b.cache[h])
  }

  ghost predicate AlikeResults(x: RunResult, y: RunResult, g: GroupId) {
    x.ending == y.ending && Alike(x.state, y.state, g)
  }

  ghost predicate AlikeTurns(x: Turn, y: Turn, g: GroupId) {
    match (x, y)
    case (GoesOn(s), GoesOn(t)) => Alike(s, t, g)
    case (Stops(p), Stops(q)) => AlikeResults(p, q, g)
    case _ => false
  }

  /** The entry does not read what is cached under g. */
  ghost predicate Ignores(e: Entry, g: GroupId) {
    e.step.Consensus? ==> e.step.source != Some(g)
  }

  /** Two workflows that differ only in their entries, run without limits from the start. */
  ghost predicate Comparable(a: Config, b: Config) {
    && SameOutside(a, b) && a.storing == b.storing && Unlimited(a) && Unlimited(b)
    && a.checkpoint == map[] && b.checkpoint == map[]
  }

  lemma CacheElsewhere(cfg: Config, e: Entry, next: nat, b: Bindings, c1: map<GroupId, seq<Value>>, c2: map<GroupId, seq<Value>>, g: GroupId)
    requires Ignores(e, g)
    requires forall h | h != g :: (h in c1 <==> h in c2) && (h in c1 ==> c1[h] == c2[h])
    ensures RunEntry(cfg, e, next, b, c1) == RunEntry(cfg, e, next, b, c2)
  {
    hide Decide, DecideNothing, RunSingle, RunParallel, RunVoters;
  }

  lemma AlikeAfterRunning(a: Config, b: Config, i: nat, j: nat, s: Progress, t: Progress, run: EntryRun, g: GroupId)
    requires i < |a.entries| && j < |b.entries| && a.entries[i] == b.entries[j] && a.storing == b.storing && Alike(s, t, g)
    ensures AlikeTurns(AfterRunning(a, i, s, run), AfterRunning(b, j, t, run), g)
  {
    hide Storable, Measure;
  }

  lemma AlikeTurn(a: Config, b: Config, i: nat, j: nat, s: Progress, t: Progress, g: GroupId)
    requires Comparable(a, b) && i < |a.entries| && j < |b.entries| && a.entries[i] == b.entries[j]
    requires Ignores(a.entries[i], g) && Alike(s, t, g)
    ensures AlikeTurns(TurnAt(a, i, s), TurnAt(b, j, t), g)
  {
    hide RunEntry, AfterRunning, SameOutside, Ignores, AlikeTurns;
    var e := a.entries[i];
    KinEntry(a, b, e, s.next, s.bindings, s.cache);
    CacheElsewhere(b, e, s.next, s.bindings, s.cache, t.cache, g);
    AlikeAfterRunning(a, b, i, j, s, t, RunEntry(a, e, s.next, s.bindings, s.cache), g);
  }

  /** Entries in common, however far apart their positions, lead to results that are alike. */
  lemma {:induction false} AlikeRest(a: Config, b: Config, i: nat, j: nat, s: Progress, t: Progress, g: GroupId)
    requires Comparable(a, b) && i <= |a.entries| && j <= |b.entries| && a.entries[i..] == b.entries[j..]
    requires forall k | i <= k < |a.entries| :: Ignores(a.entries[k], g)
    requires Alike(s, t, g)
    ensures AlikeResults(Remaining(a, i, s), Remaining(b, j, t), g)
    decreases |a.entries| - i
  {
    hide TurnAt, Remaining, Comparable, Ignores, Alike, AlikeResults;
    assert |a.entries[i..]| == |b.entries[j..]|;
    if i == |a.entries| {
      RemainingEnd(a, s);
      RemainingEnd(b, t);
      AlikeFinish(s, t, g);
    } else {
      RemainingTurn(a, i, s);
      RemainingTurn(b, j, t);
      assert a.entries[i] == a.entries[i..][0] == b.entries[j];
      AlikeTurn(a, b, i, j, s, t, g);
      assert a.entries[i..][1..] == a.entries[i + 1..] && b.entries[j..][1..] == b.entries[j + 1..];
      if TurnAt(a, i, s).GoesOn? { AlikeRest(a, b, i + 1, j + 1, TurnAt(a, i, s).state, TurnAt(b, j, t).state, g); }
    }
  }

  lemma AlikeFinish(s: Progress, t: Progress, g: GroupId)
    requires Alike(s, t, g)
    ensures AlikeResults(Finish(s, true), Finish(t, true), g)
  {
  }

  /** Two entries reusing against one running its voters again, in otherwise equal workflows. */
  ghost predicate Differ(a: Config, b: Config, k: nat, p: Entry, r: Entry, v: Entry) {
    && Comparable(a, b) && Alternatives(p, r, v) && k < |b.entries| && |a.entries| == |b.entries| + 1
    && a.entries[..k] == b.entries[..k] && a.entries[k] == p && a.entries[k + 1] == r && b.entries[k] == v
    && a.entries[k + 2..] == b.entries[k + 1..]
    && forall i | 0 <= i < |b.entries| :: Ignores(b.entries[i], p.step.id)
  }

  lemma GroupTurn(cfg: Config, i: nat, st: Progress)
    requires i < |cfg.entries| && Unlimited(cfg) && cfg.checkpoint == map[] && !cfg.entries[i].step.Single?
    ensures var run := RunEntry(cfg, cfg.entries[i], st.next, st.bindings, st.cache);
      var st' := Advance(st, cfg.entries[i], run);
      TurnAt(cfg, i, st) == if run.ok then GoesOn(st') else Stops(Finish(st', false))
  {
    hide RunEntry, Advance;
  }

  /** Where the two differ: two turns against one. */
  lemma MiddleAlike(a: Config, b: Config, k: nat, p: Entry, r: Entry, v: Entry, s: Progress, t: Progress)
    requires Differ(a, b, k, p, r, v) && Alike(s, t, p.step.id)
    ensures AlikeResults(Remaining(a, k, s), Remaining(b, k, t), p.step.id)
  {
    hide TurnAt, Remaining, RunEntry, SameOutside, Ignores, Measure;
    var g := p.step.id;
    RemainingTurn(a, k, s);
    RemainingTurn(b, k, t);
    GroupTurn(a, k, s);
    GroupTurn(b, k, t);
    KinEntry(a, b, v, s.next, s.bindings, s.cache);
    CacheElsewhere(b, v, s.next, s.bindings, s.cache, t.cache, g);
    ReuseRefinesRerunning(a, p, r, v, s.next, s.bindings, s.cache);
    ParallelCaches(a, p, s.next, s.bindings, s.cache);
    var first := RunEntry(a, p, s.next, s.bindings, s.cache);
    if first.ok {
      var s1 := Advance(s, p, first);
      RemainingTurn(a, k + 1, s1);
      GroupTurn(a, k + 1, s1);
      var second := RunEntry(a, r, s1.next, s1.bindings, s1.cache);
      AfterMiddle(a, b, k, p, r, v, s, t, first, second);
    } else {
      FailedMiddle(s, t, p, v, first, RunEntry(b, v, t.next, t.bindings, t.cache));
    }
  }

  lemma FailedMiddle(s: Progress, t: Progress, p: Entry, v: Entry, first: EntryRun, again: EntryRun)
    requires p.step.Parallel? && v.step.Consensus? && Alike(s, t, p.step.id)
    requires !first.ok && !again.ok && first.next == again.next
    ensures AlikeResults(Finish(Advance(s, p, first), false), Finish(Advance(t, v, again), false), p.step.id)
  {
    hide Measure;
  }

  lemma AfterMiddle(a: Config, b: Config, k: nat, p: Entry, r: Entry, v: Entry, s: Progress, t: Progress, first: EntryRun, second: EntryRun)
    requires Differ(a, b, k, p, r, v) && Alike(s, t, p.step.id) && first.ok && first.cached.Some?
    requires var again := RunEntry(b, v, t.next, t.bindings, t.cache);
      second.ok == again.ok && second.bound == again.bound && second.next == again.next
    ensures var s2 := Advance(Advance(s, p, first), r, second);
      var again := RunEntry(b, v, t.next, t.bindings, t.cache);
      var t1 := Advance(t, v, again);
      if again.ok then AlikeResults(Remaining(a, k + 2, s2), Remaining(b, k + 1, t1), p.step.id)
      else AlikeResults(Finish(s2, false), Finish(t1, false), p.step.id)
  {
    hide RunEntry, Remaining, Measure, Ignores, Comparable;
    var again := RunEntry(b, v, t.next, t.bindings, t.cache);
    var s2, t1 := Advance(Advance(s, p, first), r, second), Advance(t, v, again);
    assert Alike(s2, t1, p.step.id);
    if again.ok {
      forall i | k + 2 <= i < |a.entries| ensures Ignores(a.entries[i], p.step.id) {
        assert a.entries[i] == a.entries[k + 2..][i - k - 2] == b.entries[i - 1];
      }
      AlikeRest(a, b, k + 2, k + 1, s2, t1, p.step.id);
    }
  }

  lemma {:induction false} DifferAlike(a: Config, b: Config, k: nat, p: Entry, r: Entry, v: Entry, i: nat, s: Progress, t: Progress)
    requires Differ(a, b, k, p, r, v) && i <= k && Alike(s, t, p.step.id)
    ensures AlikeResults(Remaining(a, i, s), Remaining(b, i, t), p.step.id)
    decreases k - i
  {
    hide TurnAt, Remaining, Comparable, Ignores, Alike, AlikeResults;
    if i == k {
      MiddleAlike(a, b, k, p, r, v, s, t);
    } else {
      RemainingTurn(a, i, s);
      RemainingTurn(b, i, t);
      assert a.entries[i] == a.entries[..k][i] == b.entries[i];
      AlikeTurn(a, b, i, i, s, t, p.step.id);
      if TurnAt(a, i, s).GoesOn? { DifferAlike(a, b, k, p, r, v, i + 1, TurnAt(a, i, s).state, TurnAt(b, i, t).state); }
    }
  }

  /**
   Replacing a consensus by a parallel block and a consensus over it changes neither how the workflow
   ends nor any binding nor the number of steps.
   */
  lemma ReuseKeepsTheRun(a: Config, b: Config, k: nat, p: Entry, r: Entry, v: Entry)
    requires Differ(a, b, k, p, r, v)
    ensures Run(a).ending == Run(b).ending && Run(a).state.bindings == Run(b).state.bindings
    ensures Run(a).state.next == Run(b).state.next
  {
    hide Remaining, Run, Differ;
    RunIsRemaining(a);
    RunIsRemaining(b);
    DifferAlike(a, b, k, p, r, v, 0, START, START);
  }
}
