/**
 Every step is whole: it starts once, finishes once and last, and pays for the usage it reports at
 once.  Entries hand out consecutive ids to whole steps.
 */
module StepLaws {
  import opened Wrappers
  import opened Values
  import opened Runtime
  import opened Merges
  import opened Blocks
  import opened Measures
  import opened Workers
  import opened WorkerLaws
  import opened Plans
  import opened GroupLaws

  /** Neither a start nor a finish of a step, nor anything about money. */
  predicate Plain(a: Action) {
    !a.Charge? && !a.Record? &&
    (a.Emit? ==> !a.event.StepStarted? && !a.event.StepFinished? && !a.event.UsageReported?)
  }

  predicate AllPlain(l: seq<Action>) {
    forall i | 0 <= i < |l| :: Plain(l[i])
  }

  /** Nothing reported, or one report followed at once by the charge for it. */
  predicate IsPayment(pay: seq<Action>, id: nat) {
    pay == [] ||
    (|pay| == 2 && pay[0].Emit? && pay[0].event.UsageReported? && pay[0].event.id == id
     && pay[1] == Charge(id, if "cost_usd" in pay[0].event.usage then pay[0].event.usage["cost_usd"] else 0.0))
  }

  predicate IsStart(a: Action, id: nat) {
    a.Emit? && a.event.StepStarted? && a.event.id == id
  }

  predicate IsFinish(a: Action, id: nat, ok: bool) {
    a.Emit? && a.event.StepFinished? && a.event.id == id && a.event.success == ok
  }

  ghost predicate Shaped(l: seq<Action>, id: nat, ok: bool, plain: seq<Action>, pay: seq<Action>) {
    && |l| >= 2 && IsStart(l[0], id) && IsFinish(Last(l), id, ok)
    && AllPlain(plain) && IsPayment(pay, id)
    && l == [l[0]] + plain + pay + [Last(l)]
  }

  /** Start, plain actions, at most one payment, finish. */
  ghost predicate Whole(l: seq<Action>, id: nat, ok: bool) {
    About(l, OfStep(id)) && exists plain, pay :: Shaped(l, id, ok, plain, pay)
  }

  lemma WholeOf(l: seq<Action>, id: nat, ok: bool, start: Action, plain: seq<Action>, pay: seq<Action>, finish: Action)
    requires l == [start] + plain + pay + [finish] && About(l, OfStep(id))
    requires IsStart(start, id) && IsFinish(finish, id, ok) && AllPlain(plain) && IsPayment(pay, id)
    ensures Whole(l, id, ok)
  {
    assert Shaped(l, id, ok, plain, pay);
  }

  lemma {:induction false} AttemptsPlain(tool: Tool, id: nat, group: Option<GroupId>, b: Bindings, from: nat)
    ensures AllPlain(Attempts(tool, id, group, b, from).0)
    decreases if from < tool.retries then tool.retries - from else 0
  {
    if Retried(tool, id, b, from) { AttemptsPlain(tool, id, group, b, from + 1); }
  }

  lemma GatesPlain(policy: Policy, world: World, tool: Tool, agent: Option<Agent>, id: nat, group: Option<GroupId>)
    ensures AllPlain(Gates(policy, world, tool, agent, id, group).0)
  {
    hide CapabilityDenial, ApprovalDenial, Missing;
  }

  lemma BodyPlain(policy: Policy, world: World, tool: Tool, agent: Option<Agent>, id: nat, group: Option<GroupId>, b: Bindings)
    ensures AllPlain(Body(policy, world, tool, agent, id, group, b).0)
  {
    hide Gates;
    GatesPlain(policy, world, tool, agent, id, group);
    AttemptsPlain(tool, id, group, b, 0);
  }

  /** The part of an ending before any payment. */
  function PlainEnding(tool: Tool, id: nat, group: Option<GroupId>, last: Attempt, sink: bool): seq<Action> {
    match last
    case Raised(e) => [Emit(ToolFailed(id, tool.name, ErrorText(e), group))]
    case Returned(output) => (if sink then [Put(id, output)] else []) + [Emit(ToolSucceeded(id, tool.name, output, group))]
  }

  function Payment(tool: Tool, id: nat, group: Option<GroupId>, b: Bindings, last: Attempt): seq<Action> {
    if last.Raised? then [] else UsageActions(tool, id, group, b)
  }

  lemma EndingSplits(tool: Tool, id: nat, group: Option<GroupId>, b: Bindings, last: Attempt, sink: bool)
    ensures Ending(tool, id, group, b, last, sink) ==
      PlainEnding(tool, id, group, last, sink) + Payment(tool, id, group, b, last)
      + [Emit(StepFinished(id, tool.name, last.Returned?, group))]
    ensures AllPlain(PlainEnding(tool, id, group, last, sink)) && IsPayment(Payment(tool, id, group, b, last), id)
  {
    hide ErrorText;
  }

  /** Running a tool is one whole step that finishes well exactly when it has an output. */
  lemma ToolRunWhole(policy: Policy, world: World, tool: Tool, agent: Option<Agent>, id: nat, group: Option<GroupId>,
                     b: Bindings, sink: bool)
    ensures var run := ToolRun(policy, world, tool, agent, id, group, b, sink); Whole(run.actions, id, run.output.Some?)
  {
    hide Body, Ending, PlainEnding, Payment, Whole;
    var (body, last) := Body(policy, world, tool, agent, id, group, b);
    var l := ToolRun(policy, world, tool, agent, id, group, b, sink).actions;
    BodyPlain(policy, world, tool, agent, id, group, b);
    EndingSplits(tool, id, group, b, last, sink);
    ToolRunAbout(policy, world, tool, agent, id, group, b, sink);
    var start, finish := Emit(StepStarted(id, tool.name, group, false)), Emit(StepFinished(id, tool.name, last.Returned?, group));
    var plain := [Emit(ToolCalled(id, tool.name, group))] + body + PlainEnding(tool, id, group, last, sink);
    assert l == [start] + plain + Payment(tool, id, group, b, last) + [finish];
    WholeOf(l, id, last.Returned?, start, plain, Payment(tool, id, group, b, last), finish);
  }

  // ---------------------------------------------------------------- what a whole step measures

  lemma {:induction false} PlainMeasures(l: seq<Action>, q: Quantity)
    requires AllPlain(l) && (q == Steps || q == Succeeded || q == Failed || q == Cost || q.Usage?)
    requires forall i | 0 <= i < |l| :: KeyOf(l[i]).OfStep?
    ensures Measure(l, q) == 0.0
    decreases |l|
  {
    if l != [] { PlainMeasures(Init(l), q); }
  }

  /** One step counted, as succeeded or failed, and charged what it reported. */
  lemma WholeMeasures(l: seq<Action>, id: nat, ok: bool)
    requires Whole(l, id, ok)
    ensures Measure(l, Steps) == 1.0 && Measure(l, Failed) == (if ok then 0.0 else 1.0)
    ensures Measure(l, Succeeded) == (if ok then 1.0 else 0.0)
    ensures Measure(l, Usage(COST)) == Measure(l, Cost)
  {
    hide Weight, IsStart, IsFinish, IsPayment;
    var plain, pay :| Shaped(l, id, ok, plain, pay);
    forall q | q == Steps || q == Succeeded || q == Failed || q == Cost || q == Usage(COST)
      ensures Measure(l, q) == Measure(pay, q) + Weight(Last(l), q)
    {
      ShapedMeasure(l, id, ok, plain, pay, q);
    }
    PaymentMeasures(pay, id);
    FinishMeasures(Last(l), id, ok);
  }

  /** A payment is no step, and charges what it reports. */
  lemma PaymentMeasures(pay: seq<Action>, id: nat)
    requires IsPayment(pay, id)
    ensures Measure(pay, Steps) == Measure(pay, Succeeded) == Measure(pay, Failed) == 0.0
    ensures Measure(pay, Usage(COST)) == Measure(pay, Cost)
  {
    if pay != [] {
      forall q ensures Measure(pay, q) == Weight(pay[0], q) + Weight(pay[1], q) { PairMeasure(pay, q); }
    }
  }

  lemma FinishMeasures(a: Action, id: nat, ok: bool)
    requires IsFinish(a, id, ok)
    ensures Weight(a, Steps) == 1.0 && Weight(a, Failed) == (if ok then 0.0 else 1.0)
    ensures Weight(a, Succeeded) == (if ok then 1.0 else 0.0)
    ensures Weight(a, Usage(COST)) == Weight(a, Cost) == 0.0
  {
  }

  lemma PairMeasure(pay: seq<Action>, q: Quantity)
    requires |pay| == 2
    ensures Measure(pay, q) == Weight(pay[0], q) + Weight(pay[1], q)
  {
    MeasureSnoc([], pay[0], q);
    MeasureSnoc([] + [pay[0]], pay[1], q);
    assert pay == [] + [pay[0]] + [pay[1]];
  }

  lemma ShapedMeasure(l: seq<Action>, id: nat, ok: bool, plain: seq<Action>, pay: seq<Action>, q: Quantity)
    requires Shaped(l, id, ok, plain, pay) && About(l, OfStep(id))
    requires q == Steps || q == Succeeded || q == Failed || q == Cost || q == Usage(COST)
    ensures Measure(l, q) == Measure(pay, q) + Weight(Last(l), q)
  {
    assert forall i | 0 <= i < |plain| :: plain[i] == l[i + 1];
    PlainMeasures(plain, q);
    MeasureConcat([l[0]], plain, q);
    MeasureConcat([l[0]] + plain, pay, q);
    MeasureSnoc([l[0]] + plain + pay, Last(l), q);
    MeasureSnoc([], l[0], q);
    assert [] + [l[0]] == [l[0]];
  }

  // ---------------------------------------------------------------- consecutive ids

  ghost predicate WholeStep(l: seq<Action>, id: nat) {
    Whole(l, id, true) || Whole(l, id, false)
  }

  /** The ids from..to - 1 are whole steps; no other step does anything. */
  ghost predicate StepsIn(l: seq<Action>, from: nat, to: nat) {
    from <= to && forall id: nat ::
      if from <= id < to then WholeStep(Project(l, OfStep(id)), id) else Project(l, OfStep(id)) == []
  }

  lemma StepsConcat(l: seq<Action>, m: seq<Action>, a: nat, b: nat, c: nat)
    requires StepsIn(l, a, b) && StepsIn(m, b, c)
    ensures StepsIn(l + m, a, c)
  {
    hide WholeStep;
    forall id: nat ensures
      if a <= id < c then WholeStep(Project(l + m, OfStep(id)), id) else Project(l + m, OfStep(id)) == []
    {
      ProjectConcat(l, m, OfStep(id));
      var p, q := Project(l, OfStep(id)), Project(m, OfStep(id));
      assert p + [] == p && [] + q == q;
    }
  }

  lemma StepsNone(l: seq<Action>, n: nat)
    requires forall i | 0 <= i < |l| :: !KeyOf(l[i]).OfStep?
    ensures StepsIn(l, n, n)
  {
    forall id: nat ensures Project(l, OfStep(id)) == [] { ProjectNone(l, OfStep(id)); }
  }

  lemma StepsOne(l: seq<Action>, id: nat, ok: bool)
    requires Whole(l, id, ok)
    ensures StepsIn(l, id, id + 1)
  {
    ProjectAll(l, OfStep(id));
    forall other: nat | other != id ensures Project(l, OfStep(other)) == [] { ProjectNone(l, OfStep(other)); }
  }

  /** A decision is one whole step, and the fallback it may trigger is the next. */
  lemma DecideSteps(cfg: Config, step: Step, agent: Option<Agent>, votes: seq<Value>, id: nat, b: Bindings)
    requires step.Consensus?
    ensures var d := Decide(cfg, step, agent, votes, id, b); StepsIn(d.actions, id, d.next)
  {
    hide ToolRun, Whole, StepsIn;
    match step.strategy(id, votes)
    case Disagreed(e) =>
      RefusalWhole(step.name, id, step.id, StrategyError(e));
      StepsOne(DecisionOpening(step.name, id, step.id) + DecisionRefused(step.name, id, step.id, StrategyError(e)), id, false);
    case Agreed(value, metadata) =>
      AgreementWhole(step.name, id, step.id, value, metadata);
      var agreed := DecisionOpening(step.name, id, step.id) + DecisionAgreed(step.name, id, step.id, value, metadata);
      StepsOne(agreed, id, true);
      if Triggers(step.fallback, metadata) {
        var tool := step.fallback.value.tool;
        var run := ToolRun(cfg.policy, cfg.world, tool, agent, id + 1, Some(step.id), b, false);
        ToolRunWhole(cfg.policy, cfg.world, tool, agent, id + 1, Some(step.id), b, false);
        StepsOne(run.actions, id + 1, run.output.Some?);
        StepsConcat(agreed, run.actions, id, id + 1, id + 2);
      }
  }

  lemma RefusalWhole(name: string, id: nat, group: GroupId, error: string)
    ensures Whole(DecisionOpening(name, id, group) + DecisionRefused(name, id, group, error), id, false)
  {
    var l := DecisionOpening(name, id, group) + DecisionRefused(name, id, group, error);
    assert l == [l[0]] + [l[1], l[2]] + [] + [l[3]];
    WholeOf(l, id, false, l[0], [l[1], l[2]], [], l[3]);
  }

  lemma AgreementWhole(name: string, id: nat, group: GroupId, value: Value, metadata: Option<map<string, Meta>>)
    ensures Whole(DecisionOpening(name, id, group) + DecisionAgreed(name, id, group, value, metadata), id, true)
  {
    var l := DecisionOpening(name, id, group) + DecisionAgreed(name, id, group, value, metadata);
    var plain := l[1..|l| - 1];
    assert l == [l[0]] + plain + [] + [Last(l)];
    WholeOf(l, id, true, l[0], plain, [], Last(l));
  }

  lemma ReplayWhole(id: nat, saved: Saved)
    ensures Whole(ReplayActions(id, saved), id, true)
  {
    var l := ReplayActions(id, saved);
    assert l == [l[0]] + [l[1]] + [] + [l[2]];
    WholeOf(l, id, true, l[0], [l[1]], [], l[2]);
  }
}
