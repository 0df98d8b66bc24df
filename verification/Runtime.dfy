/**
 The data the scheduler works on: tools, agents, strategies, workflow entries, events.
 Calls into code outside the runtime are functions held in these values: what a tool does is a
 function of the step it runs as, the bindings it can read and the number of the attempt.
 */
module Runtime {
  import opened Wrappers
  import opened Values

  type Bindings = map<string, Value>
  type GroupId = nat

  /** A Python exception: its class name and its text. */
  datatype Exn = Exn(typeName: string, message: string)

  datatype Attempt = Returned(value: Value) | Raised(exn: Exn)

  datatype Tool = Tool(
    name: string,
    idempotent: bool,
    retries: nat,
    requires_: seq<string>,
    execute: (nat, Bindings, nat) -> Attempt,
    usage: (nat, Bindings) -> map<string, real>)

  datatype Agent = Agent(name: string, capabilities: set<string>)

  /** A value in the metadata a strategy reports; Python counts a bool as a number. */
  datatype Meta = Number(number: real) | Flag(truth: bool) | Other(value: Value)

  datatype Verdict = Agreed(value: Value, metadata: Option<map<string, Meta>>) | Disagreed(exn: Exn)

  type Strategy = (nat, seq<Value>) -> Verdict

  datatype Fallback = Fallback(tool: Tool, below: real, field: string)

  datatype Step =
    | Single(tool: Tool)
    | Parallel(id: GroupId, tools: seq<Tool>)
    | Consensus(id: GroupId, tools: seq<Tool>, name: string, strategy: Strategy,
                source: Option<GroupId>, fallback: Option<Fallback>)

  datatype Entry = Entry(step: Step, agent: Option<Agent>, asName: Option<string>)

  datatype Policy = Policy(
    requireAgent: bool,
    maxParallel: Option<int>,
    maxRuntime: Option<real>,
    maxCost: Option<real>,
    approvalFor: set<string>)

  /** What the outside answers during one run: the approval callback, and the clock before each entry. */
  datatype World = World(approve: (nat, string) -> bool, late: nat -> bool)

  datatype Event =
    | WorkflowStarted
    | WorkflowFinished(success: bool)
    | StepStarted(id: nat, tool: string, group: Option<GroupId>, replayed: bool)
    | ToolCalled(id: nat, tool: string, group: Option<GroupId>)
    | ToolSucceeded(id: nat, tool: string, output: Value, group: Option<GroupId>)
    | ToolFailed(id: nat, tool: string, error: string, group: Option<GroupId>)
    | StepFinished(id: nat, tool: string, success: bool, group: Option<GroupId>)
    | UsageReported(id: nat, tool: string, usage: map<string, real>, group: Option<GroupId>)
    | StrategyMetadataReported(id: nat, tool: string, metadata: map<string, Meta>, group: Option<GroupId>)
    | RetryAttempted(id: nat, tool: string, attempt: nat, error: string, group: Option<GroupId>)
    | ApprovalRequested(id: nat, tool: string, group: Option<GroupId>)
    | ApprovalDecided(id: nat, tool: string, approved: bool, group: Option<GroupId>)
    | GroupStarted(gid: GroupId, tools: seq<string>, consensus: bool)
    | GroupFinished(gid: GroupId, success: bool)

  /**
   One atomic thing a thread of the run does: emit an event (the bus lock makes that atomic), enter a
   tool's execute(), write its output to the shared dict, add to the cost under its lock, or write a
   checkpoint record.
   */
  datatype Action =
    | Emit(event: Event)
    | Execute(id: nat, attempt: nat)
    | Put(id: nat, output: Value)
    | Charge(id: nat, amount: real)
    | Record(position: nat, tool: string, output: Value)

  /** What an action is about: a step, a group, the run as a whole, or the checkpoint store. */
  datatype Key = OfStep(id: nat) | OfGroup(gid: GroupId) | OfRun | OfStore

  function KeyOf(a: Action): Key {
    match a
    case Execute(id, _) => OfStep(id)
    case Put(id, _) => OfStep(id)
    case Charge(id, _) => OfStep(id)
    case Record(_, _, _) => OfStore
    case Emit(e) =>
      if e.WorkflowStarted? || e.WorkflowFinished? then OfRun
      else if e.GroupStarted? || e.GroupFinished? then OfGroup(e.gid)
      else OfStep(e.id)
  }

  const COST: string := "cost_usd"

  /** usage.get("cost_usd", 0.0) */
  function CostIn(usage: map<string, real>): real {
    if COST in usage then usage[COST] else 0.0
  }
}
