/** Building a file's workflow and running it: the whole of execute_ir, against what the file means. */
module Executions {
  import opened Wrappers
  import opened Values
  import opened Runtime
  import opened Merges
  import opened Blocks
  import opened Plans
  import opened Outcomes
  import opened Journals
  import opened Grammars
  import opened Schedulers
  import opened Workflows
  import opened Compilers
  import opened Interpreters
  import MetricsModel

  datatype ExecutionError = NotBuilt(error: CompileError) | NotAdmitted(violation: Violation)

  /** The journal's status is the outcome of the trace. */
  lemma {:induction false} JournalStatus(l: seq<Action>)
    ensures JournalOf(l).status == MetricsModel.OutcomeOf(l)
    decreases |l|
  {
    if l != [] {
      JournalStatus(Init(l));
      ActionStatus(JournalOf(Init(l)), Last(l));
    }
  }

  lemma ActionStatus(j: Journal, a: Action)
    requires Consistent(j)
    ensures OnAction(j, a).status == if a.Emit? && a.event.WorkflowFinished? then Some(a.event.success) else j.status
  {
    hide OnStep, NewRecord;
  }

  /** The run of the built workflow: no store, no run id. */
  function ConfigOf(ir: IR, env: Environment, world: World): Config
    requires ir.workflow.Some? && Compile(ir, env).Success?
  {
    Config(Compile(ir, env).value, PolicyOf(ir.policy), world, map[], false)
  }

  /** What a run that was let through leaves on the workflow. */
  ghost predicate Executed(w: Workflow, trace: seq<Action>, r: RunResult, m: Meaning)
    reads w, w.bindings, if w.journal.Some? then {w.journal.value} else {}
  {
    && w.bindings.values == m.bindings && r.state.outputs == m.outputs
    && Realizes(trace, r.state.blocks)
    && w.journal.Some? && w.journal.value.State() == JournalOf(trace)
    && w.journal.value.State().status == Some(m.success)
  }

  lemma ReportedStatus(w: Workflow, trace: seq<Action>, cfg: Config, m: Meaning)
    requires Realizes(trace, Plans.Run(cfg).state.blocks) && Reported(w, trace)
    requires EndsAs(Plans.Run(cfg), m) && w.bindings.values == m.bindings
    ensures Executed(w, trace, Plans.Run(cfg), m)
  {
    hide Plans.Run, JournalOf;
    TraceStatus(cfg, trace);
    JournalStatus(trace);
  }

  lemma EndsFinished(r: RunResult, m: Meaning)
    requires EndsAs(r, m)
    ensures r.ending.Finished? && r.state.bindings == m.bindings
  {
  }

  /**
   execute_ir(ir, bindings, approval_callback).  It fails to build exactly where `Compile` does, is turned
   away exactly where the workflow is not admissible, and otherwise, for a file that sets no budgets, leaves
   the status, the bindings and the outputs the file means, whatever the schedule of its worker threads.
   */
  method ExecuteIR(ir: IR, env: Environment, world: World, hasCallback: bool)
    returns (r: Result<Workflow, ExecutionError>, ghost trace: seq<Action>)
    requires ir.workflow.Some?
    ensures match Compile(ir, env)
      case Failure(e) => r == Failure(NotBuilt(e))
      case Success(entries) =>
        && (r.Success? <==> Admissible(entries, PolicyOf(ir.policy), hasCallback, false, false))
        && (r.Failure? ==> r.error.NotAdmitted?)
    ensures r.Success? && ir.policy.maxCost.None? && ir.policy.maxRuntime.None? ==>
      Executed(r.value, trace, Plans.Run(ConfigOf(ir, env, world)), MeaningOf(ir, env, world))
  {
    hide Compile, Admissible, PolicyOf, Plans.Run, Realizes, Reported, MeaningOf, EndsAs, Executed, WellBuilt;
    var built := BuildWorkflow(ir, env);
    if built.Failure? { return Failure(NotBuilt(built.error)), []; }
    var w := built.value;
    var ran;
    ran, trace := w.Run(world, hasCallback, NoStore, None);
    if ran.Failure? { return Failure(NotAdmitted(ran.error)), trace; }
    ghost var cfg := ConfigOf(ir, env, world);
    if ir.policy.maxCost.None? && ir.policy.maxRuntime.None? {
      BuildingPreservesMeaning(ir, env, world);
      EndsFinished(Plans.Run(cfg), MeaningOf(ir, env, world));
      ReportedStatus(w, trace, cfg, MeaningOf(ir, env, world));
    }
    return Success(w), trace;
  }
}
