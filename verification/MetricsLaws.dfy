/**
 Metrics and journal are two subscribers of one bus.  At the end of every run, on every schedule, they say
 the same: each total is the sum of what the journal's records say, and a tool's statistics are the totals of
 its own events.
 */
module MetricsLaws {
  import opened Wrappers
  import opened Values
  import opened Runtime
  import opened Merges
  import opened Blocks
  import opened Measures
  import opened Plans
  import opened StepLaws
  import opened RunLaws
  import opened Journals
  import opened Confluence
  import RunGraphs
  import GateLaws
  import MetricsModel

  // ---------------------------------------------------------------- one step

  /** What a step's record says of a quantity. */
  function RecordSays(r: StepRecord, q: Quantity): real {
    match q
    case Steps => 1.0
    case Succeeded => if r.status == Some(true) then 1.0 else 0.0
    case Failed => if r.status == Some(false) then 1.0 else 0.0
    case Retries => |r.retryErrors| as real
    case Usage(key) => if r.usage.Some? && key in r.usage.value then r.usage.value[key] else 0.0
    case _ => 0.0
  }

  predicate IsTotal(q: Quantity) {
    q == Steps || q == Succeeded || q == Failed || q == Retries || q.Usage?
  }

  function Said(r: Option<StepRecord>, q: Quantity): real {
    if r.Some? then RecordSays(r.value, q) else 0.0
  }

  /** After the start: status and usage not said yet. */
  predicate Open(v: Option<StepRecord>) {
    v.Some? && v.value.status.None? && v.value.usage.None?
  }

  lemma StartOpens(a: Action, id: nat, q: Quantity)
    requires IsStart(a, id) && IsTotal(q)
    ensures Open(ViewOf([a])) && ViewOf([a]).value.retryErrors == [] && Measure([a], q) == 0.0
  {
    ViewSnoc([], a);
    MeasureSnoc([], a, q);
    assert [] + [a] == [a];
  }

  /** Plain actions say nothing but retries. */
  lemma {:induction false} PlainSays(l: seq<Action>, plain: seq<Action>, q: Quantity)
    requires Open(ViewOf(l)) && AllPlain(plain) && IsTotal(q)
    ensures Open(ViewOf(l + plain))
    ensures Measure(plain, q) ==
      if q == Retries then |ViewOf(l + plain).value.retryErrors| as real - |ViewOf(l).value.retryErrors| as real else 0.0
    decreases |plain|
  {
    if plain == [] {
      assert l + plain == l;
    } else {
      PlainSays(l, Init(plain), q);
      var a := Last(plain);
      ViewSnoc(l + Init(plain), a);
      assert l + Init(plain) + [a] == l + plain;
      assert Plain(a);
      PlainOne(ViewOf(l + Init(plain)), a, q);
    }
  }

  lemma PlainOne(v: Option<StepRecord>, a: Action, q: Quantity)
    requires Open(v) && Plain(a) && IsTotal(q)
    ensures Open(ViewStep(v, a))
    ensures Weight(a, q) == if q == Retries then |ViewStep(v, a).value.retryErrors| as real - |v.value.retryErrors| as real else 0.0
  {
  }

  lemma PaymentSays(l: seq<Action>, pay: seq<Action>, id: nat, q: Quantity)
    requires Open(ViewOf(l)) && IsPayment(pay, id) && IsTotal(q)
    ensures var v, w := ViewOf(l), ViewOf(l + pay);
      && w.Some? && w.value.retryErrors == v.value.retryErrors
      && Measure(pay, q) == if q.Usage? then RecordSays(w.value, q) else 0.0
  {
    if pay == [] {
      assert l + pay == l;
    } else {
      ViewSnoc(l, pay[0]);
      ViewSnoc(l + [pay[0]], pay[1]);
      assert l + [pay[0]] + [pay[1]] == l + pay;
      PairMeasure(pay, q);
    }
  }

  lemma FinishSays(l: seq<Action>, a: Action, id: nat, ok: bool, q: Quantity)
    requires ViewOf(l).Some? && IsFinish(a, id, ok) && IsTotal(q)
    ensures var v, w := ViewOf(l), ViewOf(l + [a]);
      && w.Some? && w.value.retryErrors == v.value.retryErrors && w.value.usage == v.value.usage && w.value.status == Some(ok)
      && Weight(a, q) == if q == Steps || (q == Succeeded && ok) || (q == Failed && !ok) then 1.0 else 0.0
  {
    ViewSnoc(l, a);
  }

  /** A whole step's record says exactly what its own actions count. */
  lemma WholeSays(l: seq<Action>, id: nat, ok: bool, q: Quantity)
    requires Whole(l, id, ok) && IsTotal(q)
    ensures ViewOf(l).Some? && Measure(l, q) == RecordSays(ViewOf(l).value, q)
  {
    hide Weight, IsFinish, IsStart, IsPayment, AllPlain, Measure, ViewOf;
    var plain, pay :| Shaped(l, id, ok, plain, pay);
    var first, last := l[0], Last(l);
    StartOpens(first, id, q);
    PlainSays([first], plain, q);
    PaymentSays([first] + plain, pay, id, q);
    FinishSays([first] + plain + pay, last, id, ok, q);
    MeasureConcat([first], plain, q);
    MeasureConcat([first] + plain, pay, q);
    MeasureSnoc([first] + plain + pay, last, q);
  }

  // ---------------------------------------------------------------- all steps

  /** What the records of the steps below n say, added up. */
  function JournalSays(j: Journal, n: nat, q: Quantity): real
    requires Consistent(j)
  {
    if n == 0 then 0.0 else JournalSays(j, n - 1, q) + Said(StepRecordOf(j, n - 1), q)
  }

  lemma StepSays(l: seq<Action>, to: nat, id: nat, q: Quantity)
    requires StepsIn(l, 1, to) && IsTotal(q)
    ensures Said(StepRecordOf(JournalOf(l), id), q) == Measure(Project(l, OfStep(id)), q)
  {
    hide RecordSays, Whole;
    RecordIsView(l, id);
    var mine := Project(l, OfStep(id));
    if 1 <= id < to {
      if Whole(mine, id, true) { WholeSays(mine, id, true, q); } else { WholeSays(mine, id, false, q); }
    } else {
      NothingSays(q);
    }
  }

  lemma NothingSays(q: Quantity)
    ensures ViewOf([]).None? && Measure([], q) == 0.0
  {
  }

  lemma {:induction false} JournalByStep(l: seq<Action>, to: nat, n: nat, q: Quantity)
    requires StepsIn(l, 1, to) && IsTotal(q)
    ensures JournalSays(JournalOf(l), n, q) == ByStep(l, n, q)
    decreases n
  {
    hide StepsIn, StepRecordOf, Said, JournalOf;
    if n > 0 {
      JournalByStep(l, to, n - 1, q);
      StepSays(l, to, n - 1, q);
    }
  }

  lemma TotalsOfSchedule(l: seq<Action>, to: nat, q: Quantity)
    requires StepsIn(l, 1, to) && IsTotal(q)
    ensures Measure(l, q) == JournalSays(JournalOf(l), to, q)
  {
    hide StepsIn, StepsBelow, JournalOf;
    StepIdsBounded(l, to);
    MeasureByStep(l, to, q);
    JournalByStep(l, to, to, q);
  }

  /** One group record for every group that starts. */
  lemma {:induction false} GroupsCounted(l: seq<Action>)
    ensures Measure(l, Groups) == |JournalOf(l).groups| as real
    decreases |l|
  {
    if l != [] {
      GroupsCounted(Init(l));
      OneMoreGroup(JournalOf(Init(l)), Last(l));
    }
  }

  lemma OneMoreGroup(j: Journal, a: Action)
    requires Consistent(j)
    ensures |OnAction(j, a).groups| as real == |j.groups| as real + Weight(a, Groups)
  {
    hide OnStep, NewRecord, StartStep, UpdateStep, FinishGroup;
    if a.Emit? {
      if a.event.StepStarted? { SameGroups(j, a.event); } else if IsStepEvent(a.event) { UpdateGroups(j, a.event); }
      else if a.event.GroupFinished? { FinishGroups(j, a.event); }
    }
  }

  lemma SameGroups(j: Journal, e: Event)
    requires Consistent(j) && e.StepStarted?
    ensures |StartStep(j, e).groups| == |j.groups|
  {
    hide NewRecord;
  }

  lemma UpdateGroups(j: Journal, e: Event)
    requires Consistent(j) && IsStepEvent(e)
    ensures |UpdateStep(j, e).groups| == |j.groups|
  {
    hide OnStep;
  }

  lemma FinishGroups(j: Journal, e: Event)
    requires Consistent(j) && e.GroupFinished?
    ensures |FinishGroup(j, e).groups| == |j.groups|
  {
  }

  // ---------------------------------------------------------------- one tool

  /** The events that name this tool. */
  function OfTool(l: seq<Action>, tool: string): seq<Action> {
    if l == [] then []
    else OfTool(Init(l), tool) + if Last(l).Emit? && IsStepEvent(Last(l).event) && Last(l).event.tool == tool then [Last(l)] else []
  }

  /** The total that a tool's own figure is a share of. */
  predicate ShareOf(q: Quantity, tool: string, total: Quantity) {
    match q
    case ToolCalls(t) => t == tool && total == Steps
    case ToolSuccesses(t) => t == tool && total == Succeeded
    case ToolFailures(t) => t == tool && total == Failed
    case ToolRetries(t) => t == tool && total == Retries
    case ToolUsage(t, key) => t == tool && total == Usage(key)
    case _ => false
  }

  /** A tool's figures are the totals over the tool's own events. */
  lemma {:induction false} ToolsShare(l: seq<Action>, q: Quantity, tool: string, total: Quantity)
    requires ShareOf(q, tool, total)
    ensures Measure(l, q) == Measure(OfTool(l, tool), total)
    decreases |l|
  {
    if l != [] {
      ToolsShare(Init(l), q, tool, total);
      var a := Last(l);
      MeasureSnoc(OfTool(Init(l), tool), a, total);
      assert OfTool(Init(l), tool) + [] == OfTool(Init(l), tool);
      ToolsWeight(a, q, tool, total);
    }
  }

  lemma ToolsWeight(a: Action, q: Quantity, tool: string, total: Quantity)
    requires ShareOf(q, tool, total)
    ensures Weight(a, q) == if a.Emit? && IsStepEvent(a.event) && a.event.tool == tool then Weight(a, total) else 0.0
  {
  }

  // ---------------------------------------------------------------- the run

  /** Any metrics of the trace say what the journal's records say. */
  ghost predicate Agree(t: MetricsModel.Totals, j: Journal, n: nat)
    requires Consistent(j)
  {
    && t.steps as real == JournalSays(j, n, Steps)
    && t.succeeded as real == JournalSays(j, n, Succeeded)
    && t.failed as real == JournalSays(j, n, Failed)
    && t.retries as real == JournalSays(j, n, Retries)
    && t.groups == |j.groups|
    && forall key :: AmountOf(t.usage, key) == JournalSays(j, n, Usage(key))
  }

  /** On every schedule of every run, the metrics at the end are the journal's, added up. */
  lemma MetricsAreTheJournals(cfg: Config, l: seq<Action>, t: MetricsModel.Totals)
    requires Linearizes(l, Run(cfg).state.blocks) && MetricsModel.Counts(t, l)
    ensures Agree(t, JournalOf(l), Run(cfg).state.next)
  {
    hide Run, StepsIn, JournalOf, JournalSays, Measure, MetricsModel.ToolsAgree;
    RunSteps(cfg, l);
    var to := Run(cfg).state.next;
    forall q | IsTotal(q) ensures Measure(l, q) == JournalSays(JournalOf(l), to, q) { TotalsOfSchedule(l, to, q); }
    GroupsCounted(l);
    assert IsTotal(Steps) && IsTotal(Succeeded) && IsTotal(Failed) && IsTotal(Retries);
    forall key ensures AmountOf(t.usage, key) == JournalSays(JournalOf(l), to, Usage(key)) {
      assert IsTotal(Usage(key));
    }
  }
}
