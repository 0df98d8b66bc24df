/** What holds of every single step's thread, whatever the tool does and the callback answers. */
module WorkerLaws {
  import opened Wrappers
  import opened Values
  import opened Runtime
  import opened Merges
  import opened Measures
  import opened Workers

  // ---------------------------------------------------------------- the attempts

  /** Attempt k failed, and another was allowed. */
  predicate Retried(tool: Tool, id: nat, b: Bindings, k: nat) {
    tool.execute(id, b, k).Raised? && tool.idempotent && k < tool.retries
  }

  /** How many times the tool is entered: up to the first success or the last allowed attempt. */
  function Tries(tool: Tool, id: nat, b: Bindings, from: nat): (n: nat)
    ensures n > 0
    ensures n <= 1 + if tool.idempotent && from < tool.retries then tool.retries - from else 0
    ensures forall k | from <= k < from + n - 1 :: Retried(tool, id, b, k)
    ensures !Retried(tool, id, b, from + n - 1)
    decreases if from < tool.retries then tool.retries - from else 0
  {
    if Retried(tool, id, b, from) then 1 + Tries(tool, id, b, from + 1) else 1
  }

  /** Attempt k's two actions: the call, and, if there is another attempt, the retry event numbered k + 1. */
  ghost predicate TryAt(l: seq<Action>, tool: Tool, id: nat, group: Option<GroupId>, b: Bindings, from: nat, k: nat) {
    && 2 * k < |l| && l[2 * k] == Execute(id, from + k)
    && (2 * k + 1 < |l| ==>
        && tool.execute(id, b, from + k).Raised?
        && l[2 * k + 1] == Emit(RetryAttempted(id, tool.name, from + k + 1, tool.execute(id, b, from + k).exn.message, group)))
  }

  /** Call, retry event, call, retry event, ..., call: n calls in all. */
  ghost predicate Tried(l: seq<Action>, tool: Tool, id: nat, group: Option<GroupId>, b: Bindings, from: nat, n: nat) {
    |l| == 2 * n - 1 && forall k | 0 <= k < n :: TryAt(l, tool, id, group, b, from, k)
  }

  lemma TriedPrepend(rest: seq<Action>, tool: Tool, id: nat, group: Option<GroupId>, b: Bindings, from: nat, n: nat)
    requires Tried(rest, tool, id, group, b, from + 1, n) && Retried(tool, id, b, from)
    ensures var retry := Emit(RetryAttempted(id, tool.name, from + 1, tool.execute(id, b, from).exn.message, group));
      Tried([Execute(id, from), retry] + rest, tool, id, group, b, from, n + 1)
  {
    var retry := Emit(RetryAttempted(id, tool.name, from + 1, tool.execute(id, b, from).exn.message, group));
    var l := [Execute(id, from), retry] + rest;
    forall k | 0 <= k < n + 1 ensures TryAt(l, tool, id, group, b, from, k) {
      if k > 0 {
        assert TryAt(rest, tool, id, group, b, from + 1, k - 1);
        assert l[2 * k] == rest[2 * (k - 1)];
        if 2 * k + 1 < |l| { assert l[2 * k + 1] == rest[2 * (k - 1) + 1]; }
      }
    }
  }

  /** The retry loop, in closed form. */
  lemma {:induction false} AttemptsAre(tool: Tool, id: nat, group: Option<GroupId>, b: Bindings, from: nat)
    ensures Tried(Attempts(tool, id, group, b, from).0, tool, id, group, b, from, Tries(tool, id, b, from))
    ensures Attempts(tool, id, group, b, from).1 == tool.execute(id, b, from + Tries(tool, id, b, from) - 1)
    decreases if from < tool.retries then tool.retries - from else 0
  {
    if Retried(tool, id, b, from) {
      AttemptsAre(tool, id, group, b, from + 1);
      TriedPrepend(Attempts(tool, id, group, b, from + 1).0, tool, id, group, b, from, Tries(tool, id, b, from + 1));
    }
  }

  // ---------------------------------------------------------------- what the thread touches

  lemma {:induction false} AttemptsAbout(tool: Tool, id: nat, group: Option<GroupId>, b: Bindings, from: nat)
    ensures About(Attempts(tool, id, group, b, from).0, OfStep(id))
    decreases if from < tool.retries then tool.retries - from else 0
  {
    if Retried(tool, id, b, from) { AttemptsAbout(tool, id, group, b, from + 1); }
  }

  lemma GatesAbout(policy: Policy, world: World, tool: Tool, agent: Option<Agent>, id: nat, group: Option<GroupId>)
    ensures About(Gates(policy, world, tool, agent, id, group).0, OfStep(id))
  {
  }

  lemma EndingAbout(tool: Tool, id: nat, group: Option<GroupId>, b: Bindings, last: Attempt, sink: bool)
    ensures About(Ending(tool, id, group, b, last, sink), OfStep(id))
  {
  }

  lemma AboutConcat(l: seq<Action>, m: seq<Action>, key: Key)
    requires About(l, key) && About(m, key)
    ensures About(l + m, key)
  {
  }

  lemma BodyAbout(policy: Policy, world: World, tool: Tool, agent: Option<Agent>, id: nat, group: Option<GroupId>, b: Bindings)
    ensures About(Body(policy, world, tool, agent, id, group, b).0, OfStep(id))
  {
    GatesAbout(policy, world, tool, agent, id, group);
    AttemptsAbout(tool, id, group, b, 0);
  }

  /** A step's thread does nothing in any other step's name. */
  lemma ToolRunAbout(policy: Policy, world: World, tool: Tool, agent: Option<Agent>, id: nat, group: Option<GroupId>,
                     b: Bindings, sink: bool)
    ensures About(ToolRun(policy, world, tool, agent, id, group, b, sink).actions, OfStep(id))
  {
    hide Body, Ending;
    var (body, last) := Body(policy, world, tool, agent, id, group, b);
    BodyAbout(policy, world, tool, agent, id, group, b);
    EndingAbout(tool, id, group, b, last, sink);
    AboutConcat(Opening(tool, id, group), body, OfStep(id));
    AboutConcat(Opening(tool, id, group) + body, Ending(tool, id, group, b, last, sink), OfStep(id));
  }

  // ---------------------------------------------------------------- the shared output dict

  /** The dict of outputs after the actions. */
  function SinkOf(l: seq<Action>): map<nat, Value> {
    if l == [] then map[]
    else if Last(l).Put? then SinkOf(Init(l))[Last(l).id := Last(l).output]
    else SinkOf(Init(l))
  }

  lemma SinkSnoc(l: seq<Action>, a: Action)
    ensures SinkOf(l + [a]) == if a.Put? then SinkOf(l)[a.id := a.output] else SinkOf(l)
  {
    assert Init(l + [a]) == l;
  }

  /** The last write to a key is its owner's last write, whatever else was interleaved. */
  lemma {:induction false} SinkProjects(l: seq<Action>, id: nat)
    ensures var mine := SinkOf(Project(l, OfStep(id)));
      (id in SinkOf(l) <==> id in mine) && (id in mine ==> SinkOf(l)[id] == mine[id])
    decreases |l|
  {
    if l != [] {
      SinkProjects(Init(l), id);
      var before := Project(Init(l), OfStep(id));
      if KeyOf(Last(l)) == OfStep(id) {
        SinkSnoc(before, Last(l));
        assert Project(l, OfStep(id)) == before + [Last(l)];
      } else {
        assert Project(l, OfStep(id)) == before;
      }
    }
  }

  predicate NoPuts(l: seq<Action>) {
    forall i | 0 <= i < |l| :: !l[i].Put?
  }

  lemma {:induction false} SinkQuiet(l: seq<Action>, m: seq<Action>)
    requires NoPuts(m)
    ensures SinkOf(l + m) == SinkOf(l)
    decreases |m|
  {
    if m == [] {
      assert l + m == l;
    } else {
      SinkQuiet(l, Init(m));
      assert l + m == l + Init(m) + [Last(m)];
      SinkSnoc(l + Init(m), Last(m));
    }
  }

  lemma {:induction false} AttemptsNoPuts(tool: Tool, id: nat, group: Option<GroupId>, b: Bindings, from: nat)
    ensures NoPuts(Attempts(tool, id, group, b, from).0)
    decreases if from < tool.retries then tool.retries - from else 0
  {
    if Retried(tool, id, b, from) { AttemptsNoPuts(tool, id, group, b, from + 1); }
  }

  lemma UsageNoPuts(tool: Tool, id: nat, group: Option<GroupId>, b: Bindings, output: Value)
    ensures NoPuts(SuccessEnding(tool, id, group, b, output, false))
    ensures SuccessEnding(tool, id, group, b, output, true) == [Put(id, output)] + SuccessEnding(tool, id, group, b, output, false)
  {
  }

  /** A successful step leaves its output in the dict under its own id. */
  lemma ToolRunSinks(policy: Policy, world: World, tool: Tool, agent: Option<Agent>, id: nat, group: Option<GroupId>, b: Bindings)
    requires ToolRun(policy, world, tool, agent, id, group, b, true).output.Some?
    ensures var run := ToolRun(policy, world, tool, agent, id, group, b, true);
      SinkOf(run.actions) == map[id := run.output.value]
  {
    var run := ToolRun(policy, world, tool, agent, id, group, b, true);
    var (body, last) := Body(policy, world, tool, agent, id, group, b);
    var output := last.value;
    var head, tail := Opening(tool, id, group) + body, SuccessEnding(tool, id, group, b, output, false);
    AttemptsNoPuts(tool, id, group, b, 0);
    UsageNoPuts(tool, id, group, b, output);
    assert NoPuts(head);
    SinkQuiet([], head);
    assert [] + head == head;
    SinkSnoc(head, Put(id, output));
    SinkQuiet(head + [Put(id, output)], tail);
    assert run.actions == head + [Put(id, output)] + tail;
  }
}
