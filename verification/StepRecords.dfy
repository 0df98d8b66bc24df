/** What the journal ends up saying about a step that ran a tool. */
module StepRecords {
  import opened Wrappers
  import opened Values
  import opened Runtime
  import opened Merges
  import opened Workers
  import opened WorkerLaws
  import opened Plans
  import opened Journals
  import opened Numerals

  /** A record after more of its step's actions. */
  function ViewFrom(v: Option<StepRecord>, l: seq<Action>): Option<StepRecord> {
    if l == [] then v else ViewStep(ViewFrom(v, Init(l)), Last(l))
  }

  lemma {:induction false} ViewConcat(v: Option<StepRecord>, l: seq<Action>, m: seq<Action>)
    ensures ViewFrom(v, l + m) == ViewFrom(ViewFrom(v, l), m)
    decreases |m|
  {
    if m == [] {
      assert l + m == l;
    } else {
      ViewConcat(v, l, Init(m));
      assert Init(l + m) == l + Init(m);
    }
  }

  lemma {:induction false} ViewFromNothing(l: seq<Action>)
    ensures ViewFrom(None, l) == ViewOf(l)
    decreases |l|
  {
    if l != [] { ViewFromNothing(Init(l)); }
  }

  lemma ViewOne(v: Option<StepRecord>, a: Action)
    ensures ViewFrom(v, [a]) == ViewStep(v, a)
  {
    assert Init([a]) == [];
  }

  lemma ViewTwo(v: Option<StepRecord>, a: Action, b: Action)
    ensures ViewFrom(v, [a, b]) == ViewStep(ViewStep(v, a), b)
  {
    ViewOne(v, a);
    assert Init([a, b]) == [a];
  }

  // ---------------------------------------------------------------- what a step comes to

  /** The agent, if there is one, was granted everything the tool demands. */
  predicate Capable(tool: Tool, agent: Option<Agent>) {
    agent.Some? ==> forall i | 0 <= i < |tool.requires_| :: tool.requires_[i] in agent.value.capabilities
  }

  predicate Asks(policy: Policy, tool: Tool, agent: Option<Agent>) {
    Capable(tool, agent) && tool.name in policy.approvalFor
  }

  predicate Enters(policy: Policy, world: World, tool: Tool, agent: Option<Agent>, id: nat) {
    Capable(tool, agent) && (tool.name in policy.approvalFor ==> world.approve(id, tool.name))
  }

  /** The capabilities of the list that the agent was not granted, in its order. */
  function Lacking(agent: Agent, needed: seq<string>): seq<string> {
    if needed == [] then []
    else Lacking(agent, Init(needed)) + if Last(needed) in agent.capabilities then [] else [Last(needed)]
  }

  /** Names with ", " between them. */
  function Listed(names: seq<string>): string {
    if names == [] then "" else if |names| == 1 then names[0] else Listed(Init(names)) + ", " + Last(names)
  }

  /** How the step ends: a refusal of a gate, or its last attempt. */
  function EndOf(policy: Policy, world: World, tool: Tool, agent: Option<Agent>, id: nat, b: Bindings): Attempt {
    if !Capable(tool, agent) then
      Raised(DenialOf(tool, agent.value))
    else if tool.name in policy.approvalFor && !world.approve(id, tool.name) then
      Raised(Exn("ApprovalDenied", "tool '" + tool.name
        + "' requires approval (Policy.approval_for), and the approval_callback denied it"))
    else tool.execute(id, b, Tries(tool, id, b, 0) - 1)
  }

  /** The runtime's own exceptions are shown with their type, a tool's by their text alone. */
  function Shown(e: Exn): string {
    if e.typeName == "CapabilityDenied" || e.typeName == "ApprovalDenied" || e.typeName == "ToolTimeout"
    then e.typeName + ": " + e.message else e.message
  }

  /** The text kept for the k-th failed attempt that was followed by another. */
  function RetryText(tool: Tool, id: nat, b: Bindings, k: nat): string
    requires tool.execute(id, b, k).Raised?
  {
    "attempt " + Digits(k + 1) + ": " + tool.execute(id, b, k).exn.message
  }

  predicate AreRetryTexts(errors: seq<string>, tool: Tool, id: nat, b: Bindings) {
    forall k | 0 <= k < |errors| :: tool.execute(id, b, k).Raised? && errors[k] == RetryText(tool, id, b, k)
  }

  lemma {:induction false} MissingSnoc(agent: Agent, needed: seq<string>, c: string)
    ensures Missing(agent, needed + [c]) == Missing(agent, needed) + if c in agent.capabilities then [] else [c]
    decreases |needed|
  {
    if needed == [] {
      assert ([] + [c])[1..] == [];
      assert ([] + [c])[0] == c;
    } else {
      assert (needed + [c])[1..] == needed[1..] + [c];
      MissingSnoc(agent, needed[1..], c);
    }
  }

  lemma {:induction false} MissingIsLacking(agent: Agent, needed: seq<string>)
    ensures Missing(agent, needed) == Lacking(agent, needed)
    decreases |needed|
  {
    if needed != [] {
      MissingIsLacking(agent, Init(needed));
      MissingSnoc(agent, Init(needed), Last(needed));
      assert Init(needed) + [Last(needed)] == needed;
    }
  }

  lemma {:induction false} JoinSnoc(names: seq<string>, n: string)
    requires names != []
    ensures Join(names + [n]) == Join(names) + ", " + n
    decreases |names|
  {
    if |names| == 1 {
      assert (names + [n])[1..] == [n];
      assert (names + [n])[0] == names[0];
    } else {
      assert (names + [n])[1..] == names[1..] + [n];
      JoinSnoc(names[1..], n);
      Grouped4(names[0] + ", ", Join(names[1..]), ", ", n);
    }
  }

  lemma Grouped4(a: string, b: string, c: string, d: string)
    ensures a + (b + c + d) == a + b + c + d
  {
  }

  lemma {:induction false} JoinIsListed(names: seq<string>)
    ensures Join(names) == Listed(names)
    decreases |names|
  {
    if |names| > 1 {
      JoinIsListed(Init(names));
      JoinSnoc(Init(names), Last(names));
      assert Init(names) + [Last(names)] == names;
    }
  }

  /** What is shown to an agent that lacks capabilities. */
  function DenialOf(tool: Tool, agent: Agent): Exn {
    var lacking := Lacking(agent, tool.requires_);
    Exn("CapabilityDenied", "tool '" + tool.name + "' requires capability/capabilities [" + Listed(lacking)
        + "], but " + agent.name + " was not granted " + (if |lacking| == 1 then "it" else "them"))
  }

  lemma DenialIs(tool: Tool, agent: Agent)
    ensures CapabilityDenial(tool, agent, Missing(agent, tool.requires_)) == DenialOf(tool, agent)
  {
    MissingIsLacking(agent, tool.requires_);
    JoinIsListed(Missing(agent, tool.requires_));
    hide Missing, Lacking, Join, Listed;
  }

  lemma CapableIff(tool: Tool, agent: Option<Agent>)
    ensures Capable(tool, agent) <==> !LacksCapability(tool, agent)
  {
  }

  /** The gates let a step through, or end it the way `EndOf` says. */
  lemma GatesEnd(policy: Policy, world: World, tool: Tool, agent: Option<Agent>, id: nat, group: Option<GroupId>, b: Bindings)
    ensures var refusal := Gates(policy, world, tool, agent, id, group).1;
      && (refusal.None? <==> Enters(policy, world, tool, agent, id))
      && (refusal.Some? ==> EndOf(policy, world, tool, agent, id, b) == Raised(refusal.value))
  {
    CapableIff(tool, agent);
    hide CapabilityDenial, DenialOf, Capable, LacksCapability;
    if LacksCapability(tool, agent) {
      LackingAgent(tool, agent);
      DenialIs(tool, agent.value);
    }
  }

  lemma LackingAgent(tool: Tool, agent: Option<Agent>)
    requires LacksCapability(tool, agent)
    ensures agent.Some?
  {
  }

  lemma ShownIsErrorText(e: Exn)
    ensures ErrorText(e) == Shown(e)
  {
  }

  /** A step's output is its last attempt's, and there is none where a gate refused or that attempt raised. */
  lemma OutputIs(policy: Policy, world: World, tool: Tool, agent: Option<Agent>, id: nat, group: Option<GroupId>, b: Bindings, sink: bool)
    ensures Body(policy, world, tool, agent, id, group, b).1 == EndOf(policy, world, tool, agent, id, b)
    ensures var end := EndOf(policy, world, tool, agent, id, b);
      ToolRun(policy, world, tool, agent, id, group, b, sink).output == if end.Returned? then Some(end.value) else None
  {
    hide Gates, Opening, Ending, Attempts, Tries, Lacking, Listed;
    GatesEnd(policy, world, tool, agent, id, group, b);
    AttemptsAre(tool, id, group, b, 0);
  }

  /** Retries are counted and their errors kept, one for one. */
  lemma {:induction false} AttemptsRecorded(r: StepRecord, tool: Tool, id: nat, group: Option<GroupId>, b: Bindings, from: nat)
    requires r.retries == |r.retryErrors| == from && AreRetryTexts(r.retryErrors, tool, id, b)
    ensures var v := ViewFrom(Some(r), Attempts(tool, id, group, b, from).0);
      && v.Some? && v.value.retries == |v.value.retryErrors| == from + Tries(tool, id, b, from) - 1
      && AreRetryTexts(v.value.retryErrors, tool, id, b)
      && v.value.(retries := r.retries, retryErrors := r.retryErrors) == r
    decreases if from < tool.retries then tool.retries - from else 0
  {
    var outcome := tool.execute(id, b, from);
    if Retried(tool, id, b, from) {
      var retry := Emit(RetryAttempted(id, tool.name, from + 1, outcome.exn.message, group));
      var rest := Attempts(tool, id, group, b, from + 1).0;
      ViewTwo(Some(r), Execute(id, from), retry);
      ViewConcat(Some(r), [Execute(id, from), retry], rest);
      AttemptsRecorded(OnStep(r, retry.event), tool, id, group, b, from + 1);
    } else {
      ViewOne(Some(r), Execute(id, from));
    }
  }

  lemma GatesRecorded(r: StepRecord, policy: Policy, world: World, tool: Tool, agent: Option<Agent>, id: nat, group: Option<GroupId>)
    ensures var (asked, refusal) := Gates(policy, world, tool, agent, id, group);
      && ViewFrom(Some(r), asked) ==
           Some(if Asks(policy, tool, agent) then r.(approved := Some(world.approve(id, tool.name))) else r)
      && (refusal.None? <==> Enters(policy, world, tool, agent, id))
  {
    hide CapabilityDenial, ApprovalDenial;
    if Asks(policy, tool, agent) {
      ViewTwo(Some(r), Emit(ApprovalRequested(id, tool.name, group)),
              Emit(ApprovalDecided(id, tool.name, world.approve(id, tool.name), group)));
    }
  }

  lemma EndingRecorded(r: StepRecord, tool: Tool, id: nat, group: Option<GroupId>, b: Bindings, last: Attempt, sink: bool)
    ensures ViewFrom(Some(r), Ending(tool, id, group, b, last, sink)) ==
      match last
      case Raised(e) => Some(r.(error := Some(ErrorText(e)), status := Some(false)))
      case Returned(output) =>
        Some(r.(output := output, status := Some(true),
                usage := if tool.usage(id, b) == map[] then r.usage else Some(tool.usage(id, b))))
  {
    hide ErrorText;
    match last
    case Raised(e) =>
      ViewTwo(Some(r), Emit(ToolFailed(id, tool.name, ErrorText(e), group)), Emit(StepFinished(id, tool.name, false, group)));
    case Returned(output) => SuccessRecorded(r, tool, id, group, b, output, sink);
  }

  lemma SuccessRecorded(r: StepRecord, tool: Tool, id: nat, group: Option<GroupId>, b: Bindings, output: Value, sink: bool)
    ensures ViewFrom(Some(r), SuccessEnding(tool, id, group, b, output, sink)) ==
      Some(r.(output := output, status := Some(true),
              usage := if tool.usage(id, b) == map[] then r.usage else Some(tool.usage(id, b))))
  {
    hide ViewStep, OnStep;
    var put := if sink then [Put(id, output)] else [];
    var told := Emit(ToolSucceeded(id, tool.name, output, group));
    var pay := UsageActions(tool, id, group, b);
    var done := Emit(StepFinished(id, tool.name, true, group));
    if sink { ViewOne(Some(r), Put(id, output)); }
    PutUnrecorded(Some(r), id, output);
    assert ViewFrom(Some(r), put) == Some(r);
    ViewConcat(Some(r), put, [told]);
    ViewOne(Some(r), told);
    var v := ViewStep(Some(r), told);
    ViewConcat(Some(r), put + [told], pay);
    var w := ViewFrom(v, pay);
    ViewConcat(Some(r), put + [told] + pay, [done]);
    ViewOne(w, done);
    PaymentRecorded(r.(output := output), tool, id, group, b);
    EventsRecorded(r, tool, id, group, output, tool.usage(id, b));
  }

  lemma PutUnrecorded(v: Option<StepRecord>, id: nat, output: Value)
    ensures ViewStep(v, Put(id, output)) == v && ViewFrom(v, []) == v
  {
  }

  lemma EventsRecorded(r: StepRecord, tool: Tool, id: nat, group: Option<GroupId>, output: Value, usage: map<string, real>)
    ensures ViewStep(Some(r), Emit(ToolSucceeded(id, tool.name, output, group))) == Some(r.(output := output))
    ensures forall s: StepRecord :: ViewStep(Some(s), Emit(StepFinished(id, tool.name, true, group))) == Some(s.(status := Some(true)))
  {
  }

  lemma PaymentRecorded(r: StepRecord, tool: Tool, id: nat, group: Option<GroupId>, b: Bindings)
    ensures ViewFrom(Some(r), UsageActions(tool, id, group, b)) ==
      Some(if tool.usage(id, b) == map[] then r else r.(usage := Some(tool.usage(id, b))))
  {
    var usage := tool.usage(id, b);
    if usage != map[] {
      ViewTwo(Some(r), Emit(UsageReported(id, tool.name, usage, group)), Charge(id, CostIn(usage)));
    }
  }

  lemma OpeningRecorded(tool: Tool, id: nat, group: Option<GroupId>)
    ensures ViewFrom(None, Opening(tool, id, group)) == Some(NewRecord(StepStarted(id, tool.name, group, false)))
  {
    ViewTwo(None, Emit(StepStarted(id, tool.name, group, false)), Emit(ToolCalled(id, tool.name, group)));
  }

  /** Gates and attempts: the approval is recorded, and the retries with their errors. */
  lemma BodyRecorded(r: StepRecord, policy: Policy, world: World, tool: Tool, agent: Option<Agent>, id: nat,
                     group: Option<GroupId>, b: Bindings)
    requires r.retries == |r.retryErrors| == 0
    ensures var v := ViewFrom(Some(r), Body(policy, world, tool, agent, id, group, b).0);
      && v.Some?
      && v.value.retries == |v.value.retryErrors| && AreRetryTexts(v.value.retryErrors, tool, id, b)
      && v.value.retries == (if Enters(policy, world, tool, agent, id) then Tries(tool, id, b, 0) - 1 else 0)
      && v.value.(retries := 0, retryErrors := r.retryErrors) ==
           (if Asks(policy, tool, agent) then r.(approved := Some(world.approve(id, tool.name))) else r)
  {
    hide Gates, Tries, Asks, Enters, ViewStep;
    var (asked, refusal) := Gates(policy, world, tool, agent, id, group);
    GatesRecorded(r, policy, world, tool, agent, id, group);
    if refusal.None? {
      var r1 := ViewFrom(Some(r), asked).value;
      ViewConcat(Some(r), asked, Attempts(tool, id, group, b, 0).0);
      AttemptsRecorded(r1, tool, id, group, b, 0);
    }
  }

  /** The record a step that ran a tool must leave, given how it ended. */
  predicate IsRecordOf(r: StepRecord, policy: Policy, world: World, tool: Tool, agent: Option<Agent>, id: nat, group: Option<GroupId>, b: Bindings) {
    var end := EndOf(policy, world, tool, agent, id, b);
    && r.id == id && r.tool == tool.name && r.group == group && !r.replayed && r.metadata.None?
    && r.status == Some(end.Returned?)
    && r.output == (if end.Returned? then end.value else Null)
    && r.error == (if end.Raised? then Some(Shown(end.exn)) else None)
    && r.approved == (if Asks(policy, tool, agent) then Some(world.approve(id, tool.name)) else None)
    && r.retries == |r.retryErrors| && AreRetryTexts(r.retryErrors, tool, id, b)
    && r.retries == (if Enters(policy, world, tool, agent, id) then Tries(tool, id, b, 0) - 1 else 0)
    && r.usage == (if end.Raised? || tool.usage(id, b) == map[] then None else Some(tool.usage(id, b)))
  }

  /**
   The record of a step that ran a tool: its result or its error text, the approval if one was asked for,
   the usage if any was reported, and the retries with their texts, one less than the times it was entered.
   */
  lemma ToolRunRecorded(policy: Policy, world: World, tool: Tool, agent: Option<Agent>, id: nat, group: Option<GroupId>,
                        b: Bindings, sink: bool)
    ensures var v := ViewOf(ToolRun(policy, world, tool, agent, id, group, b, sink).actions);
      v.Some? && IsRecordOf(v.value, policy, world, tool, agent, id, group, b)
  {
    hide Body, Ending, Enters, Asks, ErrorText, Shown, Opening, ViewStep, Tries, EndOf, AreRetryTexts;
    var run := ToolRun(policy, world, tool, agent, id, group, b, sink);
    var (body, last) := Body(policy, world, tool, agent, id, group, b);
    var ending := Ending(tool, id, group, b, last, sink);
    var r0 := NewRecord(StepStarted(id, tool.name, group, false));
    ViewFromNothing(run.actions);
    OpeningRecorded(tool, id, group);
    ViewConcat(None, Opening(tool, id, group), body);
    ViewConcat(None, Opening(tool, id, group) + body, ending);
    BodyRecorded(r0, policy, world, tool, agent, id, group, b);
    var r2 := ViewFrom(Some(r0), body).value;
    EndingRecorded(r2, tool, id, group, b, last, sink);
    OutputIs(policy, world, tool, agent, id, group, b, sink);
    if last.Raised? { ShownIsErrorText(last.exn); }
  }

  // ---------------------------------------------------------------- steps that run no tool

  lemma ViewThree(v: Option<StepRecord>, a: Action, b: Action, c: Action)
    ensures ViewFrom(v, [a, b, c]) == ViewStep(ViewStep(ViewStep(v, a), b), c)
  {
    ViewTwo(v, a, b);
    assert Init([a, b, c]) == [a, b];
  }

  lemma ViewFour(v: Option<StepRecord>, a: Action, b: Action, c: Action, d: Action)
    ensures ViewFrom(v, [a, b, c, d]) == ViewStep(ViewStep(ViewStep(ViewStep(v, a), b), c), d)
  {
    ViewThree(v, a, b, c);
    assert Init([a, b, c, d]) == [a, b, c];
  }

  /** A replayed step's record: the recorded tool and output, marked as replayed, successful, with nothing else. */
  lemma ReplayRecorded(id: nat, saved: Saved)
    ensures ViewOf(ReplayActions(id, saved)) ==
      Some(StepRecord(id, saved.tool, None, true, Some(true), saved.output, None, 0, [], None, None, None))
  {
    ViewFromNothing(ReplayActions(id, saved));
    ViewThree(None, Emit(StepStarted(id, saved.tool, None, true)), Emit(ToolSucceeded(id, saved.tool, saved.output, None)),
              Emit(StepFinished(id, saved.tool, true, None)));
  }

  /** The record of a step that reduced votes: the agreed value and the metadata, if there is any. */
  lemma AgreementRecorded(name: string, id: nat, group: GroupId, value: Value, metadata: Option<map<string, Meta>>)
    ensures ViewOf(DecisionOpening(name, id, group) + DecisionAgreed(name, id, group, value, metadata)) ==
      Some(StepRecord(id, name, Some(group), false, Some(true), value, None, 0, [], None,
                      if metadata == Some(map[]) then None else metadata, None))
  {
    var opening, agreed := DecisionOpening(name, id, group), DecisionAgreed(name, id, group, value, metadata);
    ViewFromNothing(opening + agreed);
    ViewConcat(None, opening, agreed);
    ViewTwo(None, opening[0], opening[1]);
    assert opening == [opening[0], opening[1]];
    var v := ViewFrom(None, opening);
    if metadata.Some? && metadata.value != map[] {
      ViewFour(v, agreed[0], agreed[1], agreed[2], agreed[3]);
      assert agreed == [agreed[0], agreed[1], agreed[2], agreed[3]];
    } else {
      ViewThree(v, agreed[0], agreed[1], agreed[2]);
      assert agreed == [agreed[0], agreed[1], agreed[2]];
    }
  }

  /** The record of a strategy that raised, or of votes that were never cast: failed, with the error. */
  lemma RefusalRecorded(name: string, id: nat, group: GroupId, error: string)
    ensures ViewOf(DecisionOpening(name, id, group) + DecisionRefused(name, id, group, error)) ==
      Some(StepRecord(id, name, Some(group), false, Some(false), Null, Some(error), 0, [], None, None, None))
  {
    var opening, refused := DecisionOpening(name, id, group), DecisionRefused(name, id, group, error);
    ViewFromNothing(opening + refused);
    ViewConcat(None, opening, refused);
    ViewTwo(None, opening[0], opening[1]);
    ViewTwo(ViewFrom(None, opening), refused[0], refused[1]);
    assert opening == [opening[0], opening[1]] && refused == [refused[0], refused[1]];
  }
}
