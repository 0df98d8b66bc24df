/** The Metrics subscriber: its counters, and what they count. */
module MetricsModel {
  import opened Wrappers
  import opened Values
  import opened Runtime
  import opened Merges
  import opened Measures

  datatype ToolStats = ToolStats(calls: nat, successes: nat, failures: nat, retries: nat, usage: map<string, real>)

  datatype Totals = Totals(
    steps: nat, succeeded: nat, failed: nat, groups: nat, retries: nat,
    usage: map<string, real>,
    byTool: map<string, ToolStats>)

  const EMPTY := Totals(0, 0, 0, 0, 0, map[], map[])
  const NO_STATS := ToolStats(0, 0, 0, 0, map[])


  ghost predicate StatsAgree(stats: ToolStats, l: seq<Action>, tool: string) {
    && stats.calls as real == Measure(l, ToolCalls(tool))
    && stats.successes as real == Measure(l, ToolSuccesses(tool))
    && stats.failures as real == Measure(l, ToolFailures(tool))
    && stats.retries as real == Measure(l, Quantity.ToolRetries(tool))
    && (forall key ::
        && (key in stats.usage <==> Measure(l, ToolMentions(tool, key)) > 0.0)
        && AmountOf(stats.usage, key) == Measure(l, ToolUsage(tool, key)))
  }

  function StatsOf(byTool: map<string, ToolStats>, tool: string): ToolStats {
    if tool in byTool then byTool[tool] else NO_STATS
  }

  ghost predicate CountersAgree(t: Totals, l: seq<Action>) {
    && t.steps as real == Measure(l, Steps)
    && t.succeeded as real == Measure(l, Succeeded)
    && t.failed as real == Measure(l, Failed)
    && t.groups as real == Measure(l, Groups)
    && t.retries as real == Measure(l, Retries)
  }

  ghost predicate UsageAgrees(usage: map<string, real>, l: seq<Action>) {
    forall key ::
      && (key in usage <==> Measure(l, Mentions(key)) > 0.0)
      && AmountOf(usage, key) == Measure(l, Usage(key))
  }

  ghost predicate ToolsAgree(byTool: map<string, ToolStats>, l: seq<Action>) {
    forall tool ::
      && (tool in byTool <==> Measure(l, ToolTouches(tool)) > 0.0)
      && StatsAgree(StatsOf(byTool, tool), l, tool)
  }

  /** The totals are those of the trace. */
  ghost predicate Counts(t: Totals, l: seq<Action>) {
    CountersAgree(t, l) && UsageAgrees(t.usage, l) && ToolsAgree(t.byTool, l)
  }

  lemma {:induction false} CountsNonNegative(l: seq<Action>, key: string, tool: string)
    ensures Measure(l, Mentions(key)) >= 0.0
    ensures Measure(l, ToolMentions(tool, key)) >= 0.0
    ensures Measure(l, ToolTouches(tool)) >= 0.0
    decreases |l|
  {
    if l != [] { CountsNonNegative(Init(l), key, tool); }
  }

  // ---------------------------------------------------------------- the handlers, on values

  function AddUsage(amounts: map<string, real>, usage: map<string, real>): map<string, real> {
    map key | key in amounts.Keys + usage.Keys :: AmountOf(amounts, key) + AmountOf(usage, key)
  }

  function OnFinished(t: Totals, tool: string, success: bool): Totals {
    var stats := StatsOf(t.byTool, tool);
    t.(steps := t.steps + 1,
       succeeded := t.succeeded + if success then 1 else 0,
       failed := t.failed + if success then 0 else 1,
       byTool := t.byTool[tool := stats.(
         calls := stats.calls + 1,
         successes := stats.successes + if success then 1 else 0,
         failures := stats.failures + if success then 0 else 1)])
  }

  function OnRetry(t: Totals, tool: string): Totals {
    var stats := StatsOf(t.byTool, tool);
    t.(retries := t.retries + 1, byTool := t.byTool[tool := stats.(retries := stats.retries + 1)])
  }

  function OnUsage(t: Totals, tool: string, usage: map<string, real>): Totals {
    var stats := StatsOf(t.byTool, tool);
    t.(usage := AddUsage(t.usage, usage),
       byTool := t.byTool[tool := stats.(usage := AddUsage(stats.usage, usage))])
  }

  function OnEvent(t: Totals, e: Event): Totals {
    match e
    case GroupStarted(_, _, _) => t.(groups := t.groups + 1)
    case StepFinished(_, tool, success, _) => OnFinished(t, tool, success)
    case RetryAttempted(_, tool, _, _, _) => OnRetry(t, tool)
    case UsageReported(_, tool, usage, _) => OnUsage(t, tool, usage)
    case _ => t
  }

  lemma MeasuresGrow(l: seq<Action>, a: Action)
    ensures forall q :: Measure(l + [a], q) == Measure(l, q) + Weight(a, q)
  {
    forall q { MeasureSnoc(l, a, q); }
  }

  lemma CountersStep(t: Totals, l: seq<Action>, e: Event)
    requires CountersAgree(t, l)
    ensures CountersAgree(OnEvent(t, e), l + [Emit(e)])
  {
    hide Measure;
    MeasuresGrow(l, Emit(e));
  }

  lemma UsageStep(t: Totals, l: seq<Action>, e: Event)
    requires UsageAgrees(t.usage, l)
    ensures UsageAgrees(OnEvent(t, e).usage, l + [Emit(e)])
  {
    hide Measure;
    var after := OnEvent(t, e).usage;
    forall key ensures
      (key in after <==> Measure(l + [Emit(e)], Mentions(key)) > 0.0) &&
      AmountOf(after, key) == Measure(l + [Emit(e)], Usage(key))
    {
      CountsNonNegative(l, key, "");
      MeasureSnoc(l, Emit(e), Mentions(key));
      MeasureSnoc(l, Emit(e), Usage(key));
    }
  }

  lemma ToolCallsStep(t: Totals, l: seq<Action>, e: Event, tool: string)
    requires StatsAgree(StatsOf(t.byTool, tool), l, tool)
    ensures var stats := StatsOf(OnEvent(t, e).byTool, tool);
      && stats.calls as real == Measure(l + [Emit(e)], ToolCalls(tool))
      && stats.successes as real == Measure(l + [Emit(e)], ToolSuccesses(tool))
  {
    hide Measure, AddUsage;
    MeasureSnoc(l, Emit(e), ToolCalls(tool));
    MeasureSnoc(l, Emit(e), ToolSuccesses(tool));
  }

  lemma ToolFailuresStep(t: Totals, l: seq<Action>, e: Event, tool: string)
    requires StatsAgree(StatsOf(t.byTool, tool), l, tool)
    ensures var stats := StatsOf(OnEvent(t, e).byTool, tool);
      && stats.failures as real == Measure(l + [Emit(e)], ToolFailures(tool))
      && stats.retries as real == Measure(l + [Emit(e)], Quantity.ToolRetries(tool))
  {
    hide Measure, AddUsage;
    MeasureSnoc(l, Emit(e), ToolFailures(tool));
    MeasureSnoc(l, Emit(e), Quantity.ToolRetries(tool));
  }

  lemma ToolUsageStep(t: Totals, l: seq<Action>, e: Event, tool: string, key: string)
    requires StatsAgree(StatsOf(t.byTool, tool), l, tool)
    ensures var usage := StatsOf(OnEvent(t, e).byTool, tool).usage;
      && (key in usage <==> Measure(l + [Emit(e)], ToolMentions(tool, key)) > 0.0)
      && AmountOf(usage, key) == Measure(l + [Emit(e)], ToolUsage(tool, key))
  {
    hide Measure;
    CountsNonNegative(l, key, tool);
    MeasureSnoc(l, Emit(e), ToolMentions(tool, key));
    MeasureSnoc(l, Emit(e), ToolUsage(tool, key));
  }

  lemma ToolsStep(t: Totals, l: seq<Action>, e: Event)
    requires ToolsAgree(t.byTool, l)
    ensures ToolsAgree(OnEvent(t, e).byTool, l + [Emit(e)])
  {
    hide Measure;
    var after, l' := OnEvent(t, e).byTool, l + [Emit(e)];
    forall tool ensures (tool in after <==> Measure(l', ToolTouches(tool)) > 0.0) {
      CountsNonNegative(l, "", tool);
      MeasureSnoc(l, Emit(e), ToolTouches(tool));
    }
    forall tool ensures StatsAgree(StatsOf(after, tool), l', tool) {
      ToolCallsStep(t, l, e, tool);
      ToolFailuresStep(t, l, e, tool);
      forall key { ToolUsageStep(t, l, e, tool, key); }
    }
  }

  /** Every handler keeps the totals those of the trace. */
  lemma CountsStep(t: Totals, l: seq<Action>, e: Event)
    requires Counts(t, l)
    ensures Counts(OnEvent(t, e), l + [Emit(e)])
  {
    CountersStep(t, l, e);
    UsageStep(t, l, e);
    ToolsStep(t, l, e);
  }

  /** The two traces agree in everything Metrics counts. */
  ghost predicate SameMeasures(l: seq<Action>, m: seq<Action>) {
    forall q | q != Cost :: Measure(l, q) == Measure(m, q)
  }

  lemma StatsCarry(stats: ToolStats, l: seq<Action>, m: seq<Action>, tool: string)
    requires StatsAgree(stats, l, tool) && SameMeasures(l, m)
    ensures StatsAgree(stats, m, tool)
  {
  }

  lemma CountsCarry(t: Totals, l: seq<Action>, m: seq<Action>)
    requires Counts(t, l) && SameMeasures(l, m)
    ensures Counts(t, m)
  {
    assert CountersAgree(t, m);
    assert UsageAgrees(t.usage, m);
    forall tool ensures
      (tool in t.byTool <==> Measure(m, ToolTouches(tool)) > 0.0) && StatsAgree(StatsOf(t.byTool, tool), m, tool)
    {
      assert Measure(l, ToolTouches(tool)) == Measure(m, ToolTouches(tool));
      StatsCarry(StatsOf(t.byTool, tool), l, m, tool);
    }
  }

  lemma CountsQuiet(t: Totals, l: seq<Action>, a: Action)
    requires Counts(t, l) && !a.Emit?
    ensures Counts(t, l + [a])
  {
    forall q | q != Cost ensures Measure(l, q) == Measure(l + [a], q) { MeasureSnoc(l, a, q); }
    CountsCarry(t, l, l + [a]);
  }

  lemma AmountsEqual(a: map<string, real>, b: map<string, real>)
    requires forall key :: (key in a <==> key in b) && AmountOf(a, key) == AmountOf(b, key)
    ensures a == b
  {
    forall key | key in a ensures a[key] == b[key] {
      assert AmountOf(a, key) == AmountOf(b, key);
    }
  }

  lemma StatsEqual(a: ToolStats, b: ToolStats, l: seq<Action>, tool: string)
    requires StatsAgree(a, l, tool) && StatsAgree(b, l, tool)
    ensures a == b
  {
    AmountsEqual(a.usage, b.usage);
  }

  lemma ByToolEqual(a: map<string, ToolStats>, b: map<string, ToolStats>, l: seq<Action>)
    requires ToolsAgree(a, l) && ToolsAgree(b, l)
    ensures a == b
  {
    forall tool ensures tool in a <==> tool in b {
      assert tool in a <==> Measure(l, ToolTouches(tool)) > 0.0;
    }
    forall tool | tool in a ensures a[tool] == b[tool] {
      assert StatsAgree(StatsOf(a, tool), l, tool) && StatsAgree(StatsOf(b, tool), l, tool);
      StatsEqual(a[tool], b[tool], l, tool);
    }
  }

  /** A trace's measures determine the totals. */
  lemma CountsDetermine(t: Totals, u: Totals, l: seq<Action>)
    requires Counts(t, l) && Counts(u, l)
    ensures t == u
  {
    AmountsEqual(t.usage, u.usage);
    ByToolEqual(t.byTool, u.byTool, l);
  }

  function Without(usage: map<string, real>, keys: set<string>): map<string, real> {
    map key | key in usage && key !in keys :: usage[key]
  }

  lemma AddUsageStep(amounts: map<string, real>, usage: map<string, real>, work: set<string>, key: string)
    requires key in work && key in usage
    ensures var before := AddUsage(amounts, Without(usage, work));
      AddUsage(amounts, Without(usage, work - {key})) == before[key := AmountOf(before, key) + usage[key]]
  {
  }

  /** How the run ended, if it did. */
  function OutcomeOf(l: seq<Action>): Option<bool> {
    if l == [] then None
    else if Last(l).Emit? && Last(l).event.WorkflowFinished? then Some(Last(l).event.success)
    else OutcomeOf(Init(l))
  }

  lemma OutcomeSnoc(l: seq<Action>, a: Action)
    ensures OutcomeOf(l + [a]) == if a.Emit? && a.event.WorkflowFinished? then Some(a.event.success) else OutcomeOf(l)
  {
    assert Init(l + [a]) == l;
  }

  class Metrics {
    ghost var log: seq<Action>      // everything the run has done so far
    var status: Option<bool>
    var stepsTotal: nat
    var stepsSucceeded: nat
    var stepsFailed: nat
    var groupsTotal: nat
    var retriesTotal: nat
    var usageTotals: map<string, real>
    var byTool: map<string, ToolStats>

    constructor ()
      ensures Valid() && log == []
    {
      log := [];
      status := None;
      stepsTotal, stepsSucceeded, stepsFailed, groupsTotal, retriesTotal := 0, 0, 0, 0, 0;
      usageTotals, byTool := map[], map[];
    }

    function State(): Totals
      reads this
    {
      Totals(stepsTotal, stepsSucceeded, stepsFailed, groupsTotal, retriesTotal, usageTotals, byTool)
    }

    /** The totals are those of the trace. */
    ghost predicate Valid()
      reads this
    {
      Counts(State(), log) && status == OutcomeOf(log)
    }

    method Notify(e: Event)
      requires Valid()
      modifies this
      ensures Valid() && log == old(log) + [Emit(e)]
    {
      CountsStep(State(), log, e);
      OutcomeSnoc(log, Emit(e));
      On(e);
      log := log + [Emit(e)];
    }

    /** Actions that are not events pass the metrics by. */
    ghost method Miss(a: Action)
      requires Valid() && !a.Emit?
      modifies this`log
      ensures Valid() && log == old(log) + [a]
    {
      CountsQuiet(State(), log, a);
      OutcomeSnoc(log, a);
      log := log + [a];
    }

    method OnWorkflowFinished(success: bool)
      modifies this`status
      ensures status == Some(success)
    {
      status := Some(success);
    }

    method OnStepFinished(tool: string, success: bool)
      modifies this
      ensures State() == OnFinished(old(State()), tool, success) && status == old(status) && log == old(log)
    {
      stepsTotal := stepsTotal + 1;
      var stats := StatsOf(byTool, tool);
      stats := stats.(calls := stats.calls + 1);
      if success {
        stepsSucceeded := stepsSucceeded + 1;
        stats := stats.(successes := stats.successes + 1);
      } else {
        stepsFailed := stepsFailed + 1;
        stats := stats.(failures := stats.failures + 1);
      }
      byTool := byTool[tool := stats];
    }

    /** The loop over the reported keys, for one of the two dicts it adds to. */
    static method AddTo(amounts: map<string, real>, usage: map<string, real>) returns (sums: map<string, real>)
      ensures sums == AddUsage(amounts, usage)
    {
      sums := amounts;
      var work := usage.Keys;
      assert AddUsage(amounts, Without(usage, work)) == amounts;
      while work != {}
        invariant work <= usage.Keys
        invariant sums == AddUsage(amounts, Without(usage, work))
        decreases |work|
      {
        var key :| key in work;
        AddUsageStep(amounts, usage, work, key);
        work := work - {key};
        sums := sums[key := AmountOf(sums, key) + usage[key]];
      }
      assert Without(usage, {}) == usage;
    }

    method OnUsageReported(tool: string, usage: map<string, real>)
      modifies this
      ensures State() == OnUsage(old(State()), tool, usage) && status == old(status) && log == old(log)
    {
      var stats := StatsOf(byTool, tool);
      usageTotals := AddTo(usageTotals, usage);
      var mine := AddTo(stats.usage, usage);
      byTool := byTool[tool := stats.(usage := mine)];
    }

    /** What the subscriber does with an event, whatever its type. */
    method On(e: Event)
      modifies this
      ensures State() == OnEvent(old(State()), e) && log == old(log)
      ensures status == if e.WorkflowFinished? then Some(e.success) else old(status)
    {
      match e {
        case WorkflowFinished(success) => OnWorkflowFinished(success);
        case GroupStarted(_, _, _) => groupsTotal := groupsTotal + 1;
        case StepFinished(_, tool, success, _) => OnStepFinished(tool, success);
        case RetryAttempted(_, tool, _, _, _) =>
          retriesTotal := retriesTotal + 1;
          var stats := StatsOf(byTool, tool);
          byTool := byTool[tool := stats.(retries := stats.retries + 1)];
        case UsageReported(_, tool, usage, _) => OnUsageReported(tool, usage);
        case _ =>
      }
    }
  }
}
