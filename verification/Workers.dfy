/**
 Running one tool as a step: the gates, the attempts and the events around them, as the list of
 actions the thread performs.
 */
module Workers {
  import opened Wrappers
  import opened Values
  import opened Runtime
  import opened Merges

  /** What a step did, and its output if it succeeded. */
  datatype StepRun = StepRun(actions: seq<Action>, output: Option<Value>)

  const TYPED: set<string> := {"CapabilityDenied", "ApprovalDenied", "ToolTimeout"}

  /** The error text of a failed step; only the runtime's own exceptions are shown with their type. */
  function ErrorText(e: Exn): string {
    if e.typeName in TYPED then e.typeName + ": " + e.message else e.message
  }

  function Missing(agent: Agent, needed: seq<string>): (missing: seq<string>)
    ensures missing == [] <==> forall i | 0 <= i < |needed| :: needed[i] in agent.capabilities
    ensures forall i | 0 <= i < |missing| :: missing[i] in needed && missing[i] !in agent.capabilities
  {
    if needed == [] then []
    else
      var rest := Missing(agent, needed[1..]);
      assert forall i | 0 < i < |needed| :: needed[i] == needed[1..][i - 1];
      if needed[0] in agent.capabilities then rest else [needed[0]] + rest
  }

  function Join(names: seq<string>): string {
    if names == [] then "" else if |names| == 1 then names[0] else names[0] + ", " + Join(names[1..])
  }

  function CapabilityDenial(tool: Tool, agent: Agent, missing: seq<string>): Exn {
    Exn("CapabilityDenied",
        "tool '" + tool.name + "' requires capability/capabilities [" + Join(missing) + "], but " + agent.name
        + " was not granted " + (if |missing| == 1 then "it" else "them"))
  }

  function ApprovalDenial(tool: Tool): Exn {
    Exn("ApprovalDenied",
        "tool '" + tool.name + "' requires approval (Policy.approval_for), and the approval_callback denied it")
  }

  /** The agent, if there is one, lacks a capability the tool demands. */
  predicate LacksCapability(tool: Tool, agent: Option<Agent>) {
    agent.Some? && Missing(agent.value, tool.requires_) != []
  }

  /** The approval part of the gates: what is emitted, and the refusal if there is one. */
  function Approval(policy: Policy, world: World, tool: Tool, id: nat, group: Option<GroupId>): (seq<Action>, Option<Exn>) {
    if tool.name !in policy.approvalFor then ([], None)
    else
      var approved := world.approve(id, tool.name);
      ([Emit(ApprovalRequested(id, tool.name, group)), Emit(ApprovalDecided(id, tool.name, approved, group))],
       if approved then None else Some(ApprovalDenial(tool)))
  }

  predicate WillRetry(tool: Tool, attempt: nat) {
    tool.idempotent && attempt < tool.retries
  }

  /** The attempts from number `attempt` on, and how the last of them ended. */
  function Attempts(tool: Tool, id: nat, group: Option<GroupId>, b: Bindings, attempt: nat): (seq<Action>, Attempt)
    decreases if attempt < tool.retries then tool.retries - attempt else 0
  {
    var outcome := tool.execute(id, b, attempt);
    if outcome.Raised? && WillRetry(tool, attempt) then
      var (rest, last) := Attempts(tool, id, group, b, attempt + 1);
      ([Execute(id, attempt), Emit(RetryAttempted(id, tool.name, attempt + 1, outcome.exn.message, group))] + rest, last)
    else ([Execute(id, attempt)], outcome)
  }

  function Opening(tool: Tool, id: nat, group: Option<GroupId>): seq<Action> {
    [Emit(StepStarted(id, tool.name, group, false)), Emit(ToolCalled(id, tool.name, group))]
  }

  function FailedEnding(tool: Tool, id: nat, group: Option<GroupId>, e: Exn): seq<Action> {
    [Emit(ToolFailed(id, tool.name, ErrorText(e), group)), Emit(StepFinished(id, tool.name, false, group))]
  }

  /** usage() is reported, and charged, only when it says something. */
  function UsageActions(tool: Tool, id: nat, group: Option<GroupId>, b: Bindings): seq<Action> {
    var usage := tool.usage(id, b);
    if usage == map[] then []
    else [Emit(UsageReported(id, tool.name, usage, group)), Charge(id, CostIn(usage))]
  }

  function SuccessEnding(tool: Tool, id: nat, group: Option<GroupId>, b: Bindings, output: Value, sink: bool): seq<Action> {
    (if sink then [Put(id, output)] else [])
    + [Emit(ToolSucceeded(id, tool.name, output, group))]
    + UsageActions(tool, id, group, b)
    + [Emit(StepFinished(id, tool.name, true, group))]
  }

  /** Capability first, then approval; neither is retried. */
  function Gates(policy: Policy, world: World, tool: Tool, agent: Option<Agent>, id: nat, group: Option<GroupId>)
    : (seq<Action>, Option<Exn>)
  {
    if LacksCapability(tool, agent) then
      ([], Some(CapabilityDenial(tool, agent.value, Missing(agent.value, tool.requires_))))
    else Approval(policy, world, tool, id, group)
  }

  function Ending(tool: Tool, id: nat, group: Option<GroupId>, b: Bindings, last: Attempt, sink: bool): seq<Action> {
    match last
    case Raised(e) => FailedEnding(tool, id, group, e)
    case Returned(output) => SuccessEnding(tool, id, group, b, output, sink)
  }

  /** Between the opening and the ending: the gates and, if they let it through, the attempts. */
  function Body(policy: Policy, world: World, tool: Tool, agent: Option<Agent>, id: nat, group: Option<GroupId>, b: Bindings)
    : (seq<Action>, Attempt)
  {
    var (asked, refusal) := Gates(policy, world, tool, agent, id, group);
    if refusal.Some? then (asked, Raised(refusal.value))
    else (asked + Attempts(tool, id, group, b, 0).0, Attempts(tool, id, group, b, 0).1)
  }

  function ToolRun(policy: Policy, world: World, tool: Tool, agent: Option<Agent>, id: nat, group: Option<GroupId>,
                   b: Bindings, sink: bool): StepRun
  {
    var (body, last) := Body(policy, world, tool, agent, id, group, b);
    StepRun(Opening(tool, id, group) + body + Ending(tool, id, group, b, last, sink),
            if last.Returned? then Some(last.value) else None)
  }

  // ---------------------------------------------------------------- the code, statement by statement

  method AskApproval(policy: Policy, world: World, tool: Tool, id: nat, group: Option<GroupId>)
    returns (log: seq<Action>, refusal: Option<Exn>)
    ensures log == Approval(policy, world, tool, id, group).0
    ensures refusal == Approval(policy, world, tool, id, group).1
  {
    hide ApprovalDenial;
    log, refusal := [], None;
    if tool.name in policy.approvalFor {
      log := [Emit(ApprovalRequested(id, tool.name, group))];
      var approved := world.approve(id, tool.name);
      log := log + [Emit(ApprovalDecided(id, tool.name, approved, group))];
      if !approved { refusal := Some(ApprovalDenial(tool)); }
    }
  }

  method PassGates(policy: Policy, world: World, tool: Tool, agent: Option<Agent>, id: nat, group: Option<GroupId>)
    returns (log: seq<Action>, refusal: Option<Exn>)
    ensures log == Gates(policy, world, tool, agent, id, group).0
    ensures refusal == Gates(policy, world, tool, agent, id, group).1
  {
    if agent.Some? {
      var missing := Missing(agent.value, tool.requires_);
      if missing != [] { return [], Some(CapabilityDenial(tool, agent.value, missing)); }
    }
    log, refusal := AskApproval(policy, world, tool, id, group);
  }

  /** The retry loop. */
  method CallWithRetries(tool: Tool, id: nat, group: Option<GroupId>, b: Bindings)
    returns (log: seq<Action>, last: Attempt)
    ensures (log, last) == Attempts(tool, id, group, b, 0)
  {
    var attempt := 0;
    log := [];
    ghost var all := Attempts(tool, id, group, b, 0);
    while true
      invariant attempt <= tool.retries
      invariant all.0 == log + Attempts(tool, id, group, b, attempt).0
      invariant all.1 == Attempts(tool, id, group, b, attempt).1
      decreases tool.retries - attempt
    {
      log := log + [Execute(id, attempt)];
      last := tool.execute(id, b, attempt);
      if last.Returned? { return; }
      if tool.idempotent && attempt < tool.retries {
        attempt := attempt + 1;
        log := log + [Emit(RetryAttempted(id, tool.name, attempt, last.exn.message, group))];
      } else {
        return;
      }
    }
  }

  method Succeed(tool: Tool, id: nat, group: Option<GroupId>, b: Bindings, output: Value, sink: bool)
    returns (log: seq<Action>)
    ensures log == SuccessEnding(tool, id, group, b, output, sink)
  {
    log := [];
    if sink { log := log + [Put(id, output)]; }
    log := log + [Emit(ToolSucceeded(id, tool.name, output, group))];
    var usage := tool.usage(id, b);
    if usage != map[] {
      log := log + [Emit(UsageReported(id, tool.name, usage, group)), Charge(id, CostIn(usage))];
    }
    log := log + [Emit(StepFinished(id, tool.name, true, group))];
  }

  /** One step's thread from StepStarted to StepFinished; the log is what it performs, in order. */
  method RunTool(policy: Policy, world: World, tool: Tool, agent: Option<Agent>, id: nat, group: Option<GroupId>,
                 b: Bindings, sink: bool) returns (run: StepRun)
    ensures run == ToolRun(policy, world, tool, agent, id, group, b, sink)
  {
    var log := [Emit(StepStarted(id, tool.name, group, false)), Emit(ToolCalled(id, tool.name, group))];
    var body, failure := PassGates(policy, world, tool, agent, id, group);
    if failure.None? {
      var attempts, last := CallWithRetries(tool, id, group, b);
      body := body + attempts;
      match last {
        case Raised(e) => failure := Some(e);
        case Returned(output) =>
          var ending := Succeed(tool, id, group, b, output, sink);
          return StepRun(log + body + ending, Some(output));
      }
    }
    run := StepRun(log + body + [Emit(ToolFailed(id, tool.name, ErrorText(failure.value), group)),
                                 Emit(StepFinished(id, tool.name, false, group))], None);
  }
}
