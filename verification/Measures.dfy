/**
 Everything the run counts: the Metrics subscriber's totals and the cost the scheduler accumulates
 under its own lock.  Each is a sum over the trace of what the single actions contribute.
 */
module Measures {
  import opened Wrappers
  import opened Values
  import opened Runtime
  import opened Merges
  import opened Blocks

  datatype Quantity =
    | Steps | Succeeded | Failed | Groups | Retries
    | Usage(key: string)
    | Mentions(key: string)
    | ToolCalls(tool: string) | ToolSuccesses(tool: string) | ToolFailures(tool: string) | ToolRetries(tool: string)
    | ToolUsage(tool: string, key: string)
    | ToolMentions(tool: string, key: string)
    | ToolTouches(tool: string)
    | Cost

  function One(b: bool): real { if b then 1.0 else 0.0 }

  function AmountOf(usage: map<string, real>, key: string): real {
    if key in usage then usage[key] else 0.0
  }

  /** What one event contributes to a quantity. */
  function EventWeight(e: Event, q: Quantity): real {
    match e
    case GroupStarted(_, _, _) => One(q == Groups)
    case StepFinished(_, tool, success, _) =>
      One(q == Steps || (q == Succeeded && success) || (q == Failed && !success)
          || q == ToolCalls(tool) || q == ToolTouches(tool)
          || (q == ToolSuccesses(tool) && success) || (q == ToolFailures(tool) && !success))
    case RetryAttempted(_, tool, _, _, _) =>
      One(q == Retries || q == ToolRetries(tool) || q == ToolTouches(tool))
    case UsageReported(_, tool, usage, _) =>
      if q == ToolTouches(tool) then 1.0
      else if q.Usage? then AmountOf(usage, q.key)
      else if q.ToolUsage? && q.tool == tool then AmountOf(usage, q.key)
      else One((q.Mentions? && q.key in usage) || (q.ToolMentions? && q.tool == tool && q.key in usage))
    case _ => 0.0
  }

  function Weight(a: Action, q: Quantity): real {
    match a
    case Emit(e) => EventWeight(e, q)
    case Charge(_, amount) => if q == Cost then amount else 0.0
    case _ => 0.0
  }

  function Measure(l: seq<Action>, q: Quantity): real {
    if l == [] then 0.0 else Measure(Init(l), q) + Weight(Last(l), q)
  }

  lemma MeasureSnoc(l: seq<Action>, a: Action, q: Quantity)
    ensures Measure(l + [a], q) == Measure(l, q) + Weight(a, q)
  {
    assert Init(l + [a]) == l;
  }

  lemma {:induction false} MeasureConcat(l: seq<Action>, m: seq<Action>, q: Quantity)
    ensures Measure(l + m, q) == Measure(l, q) + Measure(m, q)
    decreases |m|
  {
    if m == [] {
      assert l + m == l;
    } else {
      MeasureConcat(l, Init(m), q);
      assert Init(l + m) == l + Init(m);
    }
  }

  /** Taking the last action away from one member takes its share away from the total. */
  lemma {:induction false} FlattenMeasure(members: seq<seq<Action>>, k: nat, q: Quantity)
    requires k < |members| && members[k] != []
    ensures Measure(Flatten(members), q) == Measure(Flatten(DropLast(members, k)), q) + Weight(Last(members[k]), q)
    decreases |members|
  {
    var init, last, dropped := Init(members), Last(members), DropLast(members, k);
    MeasureConcat(Flatten(init), last, q);
    MeasureConcat(Flatten(Init(dropped)), Last(dropped), q);
    if k == |members| - 1 {
      assert Init(dropped) == init;
    } else {
      assert Init(dropped) == DropLast(init, k);
      FlattenMeasure(init, k, q);
    }
  }

  lemma {:induction false} MergeMeasure(l: seq<Action>, members: seq<seq<Action>>, q: Quantity)
    requires IsMerge(l, members)
    ensures Measure(l, q) == Measure(Flatten(members), q)
    decreases |l|
  {
    if l == [] {
      FlattenEmpty(members);
    } else {
      var k: nat :| EndsWith(l, members, k) && IsMerge(Init(l), DropLast(members, k));
      MergeMeasure(Init(l), DropLast(members, k), q);
      FlattenMeasure(members, k, q);
    }
  }

  /** No total depends on the interleaving. */
  lemma {:induction false} LinearizationMeasure(l: seq<Action>, blocks: seq<Block>, q: Quantity)
    requires Linearizes(l, blocks)
    ensures Measure(l, q) == Measure(Sequential(blocks), q)
    decreases |blocks|
  {
    if blocks != [] {
      var before, during := LinearizesEnds(l, blocks);
      LinearizationMeasure(before, Init(blocks), q);
      if Last(blocks).Fork? { MergeMeasure(during, Last(blocks).members, q); }
      MeasureConcat(before, during, q);
      MeasureConcat(Sequential(Init(blocks)), InOrder(Last(blocks)), q);
    }
  }
}
