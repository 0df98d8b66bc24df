/** The model agent that runs the tool-calling loop. */
module ToolAgents {
  import opened Wrappers
  import opened Values
  import opened Runtime
  import opened Graphs
  import opened MindGraphs
  import Workers
  import opened ToolLoops

  /** What every call of the loop keeps, the graph having been g0 when the loop began. */
  ghost predicate Going(s: Setup, g0: Graph<CallKey>, g: Graph<CallKey>, log: seq<LogRecord>, entered: seq<CallKey>) {
    && Sane(s, g) && Grows(g0, g) && LogAgrees(s, log)
    && EnteredOnce(s, g0, entered) && AllLive(s, g, entered)
  }

  lemma GoingStarts(s: Setup, g: Graph<CallKey>)
    requires Sane(s, g)
    ensures Going(s, g, g, [], [])
  {
    GrowsSelf(g);
  }

  /** A reused result: nothing is entered, the record comes from the node. */
  lemma ReuseGoes(s: Setup, g0: Graph<CallKey>, g: Graph<CallKey>, log: seq<LogRecord>, entered: seq<CallKey>, key: CallKey)
    requires Going(s, g0, g, log, entered) && Live(g, key)
    ensures var node := g.nodes[g.index[key]];
      var (text, error) := Remembered(node.content);
      && RecordAgrees(s, LogRecord(key.name, key.args, text, error))
      && Answers(s, node, key)
  {
    hide Invoke, ResultContent, Remembered, LogAgrees, EnteredOnce, AllLive, Grows, GivenBy, Permitted;
    var node := g.nodes[g.index[key]];
    assert Answers(s, node, key);
    RememberedIs(s, key.name, Invoke(s, 0, key));
    InvokeGives(s, 0, key);
  }

  lemma LogGrows(s: Setup, log: seq<LogRecord>, r: LogRecord)
    requires LogAgrees(s, log) && (r.name != EXPAND ==> RecordAgrees(s, r))
    ensures LogAgrees(s, log + [r])
  {
    hide RecordAgrees;
  }

  /** A tool was entered, and if its result is cached, it had not been live and is now. */
  lemma EnteringGoes(s: Setup, g0: Graph<CallKey>, g: Graph<CallKey>, g': Graph<CallKey>, entered: seq<CallKey>, key: CallKey)
    requires EnteredOnce(s, g0, entered) && AllLive(s, g, entered) && Grows(g0, g) && Grows(g, g')
    requires Cached(s, key) ==> !Live(g, key) && Live(g', key)
    ensures EnteredOnce(s, g0, entered + [key]) && AllLive(s, g', entered + [key])
  {
    hide Cached;
    var all := entered + [key];
    forall i | 0 <= i < |all| && Cached(s, all[i])
      ensures Live(g', all[i]) && !Live(g0, all[i]) && forall j | 0 <= j < i :: all[j] != all[i]
    {
      if i < |entered| {
        assert all[i] == entered[i];
        assert forall j | 0 <= j < i :: all[j] == entered[j];
      } else {
        forall j | 0 <= j < i ensures all[j] != key { assert all[j] == entered[j]; }
      }
    }
  }

  /** The two ways a result that the graph does not already hold is dealt with. */
  lemma FreshGoes(s: Setup, g0: Graph<CallKey>, g: Graph<CallKey>, log: seq<LogRecord>, entered: seq<CallKey>, key: CallKey, n: nat)
    requires Going(s, g0, g, log, entered) && s.useGraph && key.name != EXPAND && !(s.dedup && Live(g, key))
    ensures var out := Invoke(s, n, key);
      var r := Added(s, g, key, out, s.dedup);
      && r.Success? && Grows(g, r.value.0)
      && Going(s, g0, r.value.0, log + [LogRecord(key.name, key.args, out.text, out.error)], entered + [key])
      && ShowsNode(s, r.value.0, ToolCall("", key.name, key.args), Reference(r.value.1), r.value.1.id)
  {
    hide Invoke, Added, Reference, Sane, Answers, GivenBy, Permitted;
    var out := Invoke(s, n, key);
    AddingIs(s, g, key, n);
    PureInvokesIn(s, g, n, key);
    InvokeGives(s, 0, key);
    NamedUnderOwnId(s, Added(s, g, key, out, s.dedup).value.0, Added(s, g, key, out, s.dedup).value.1.id);
    var (g', node) := Added(s, g, key, out, s.dedup).value;
    GrowsTrans(g0, g, g');
    LogGrows(s, log, LogRecord(key.name, key.args, out.text, out.error));
    EnteringGoes(s, g0, g, g', entered, key);
  }

  lemma AddingIs(s: Setup, g: Graph<CallKey>, key: CallKey, n: nat)
    requires Sane(s, g)
    ensures var r := Added(s, g, key, Invoke(s, n, key), s.dedup);
      && r.Success? && Sane(s, r.value.0) && Grows(g, r.value.0)
      && r.value.1.id in r.value.0.nodes && r.value.0.nodes[r.value.1.id] == r.value.1 && Answers(s, r.value.1, key)
      && (s.dedup ==> Live(r.value.0, key))
  {
    hide Invoke, Added;
    AddingAgrees(s, g, key, n, s.dedup);
  }

  lemma NamedUnderOwnId(s: Setup, g: Graph<CallKey>, id: NodeId)
    requires Sane(s, g) && id in g.nodes
    ensures g.nodes[id].id == id
  {
  }

  lemma PureInvokesIn(s: Setup, g: Graph<CallKey>, n: nat, key: CallKey)
    requires Sane(s, g)
    ensures Invoke(s, n, key) == Invoke(s, 0, key)
  {
    PureInvokes(s, n, 0, key);
  }

  /** A call whose result the graph does not keep. */
  lemma PlainGoes(s: Setup, g0: Graph<CallKey>, g: Graph<CallKey>, log: seq<LogRecord>, entered: seq<CallKey>, key: CallKey, out: Outcome, n: nat)
    requires Going(s, g0, g, log, entered) && !(s.useGraph && key.name != EXPAND)
    requires key.name != EXPAND ==> out == Invoke(s, n, key)
    ensures Going(s, g0, g, log + [LogRecord(key.name, key.args, out.text, out.error)], entered + [key])
  {
    hide Invoke, Sane, GivenBy, Permitted;
    PureInvokesIn(s, g, n, key);
    InvokeGives(s, 0, key);
    LogGrows(s, log, LogRecord(key.name, key.args, out.text, out.error));
    GrowsSelf(g);
    EnteringGoes(s, g0, g, g, entered, key);
  }

  class ModelAgent {
    const setup: Setup
    const graph: MindGraph<CallKey>         // possibly shared with other agents
    var memory: seq<Message>                // this conversation's history
    var log: seq<LogRecord>                 // tool_call_log
    var attempts: nat                       // calls of generate, ever
    var invocations: nat                    // calls of tools, ever
    ghost var entered: seq<CallKey>         // the calls of this run that were not answered from the cache, in order
    ghost var runs: seq<CallKey>            // the tools this run applied, in order
    ghost var how: seq<How>                 // how each logged call was dealt with

    constructor (setup: Setup, graph: MindGraph<CallKey>)
      ensures this.setup == setup && this.graph == graph && memory == [] && log == []
    {
      this.setup, this.graph, memory, log, attempts, invocations, entered := setup, graph, [], [], 0, 0, [];
      runs, how := [], [];
    }

    /** How often a model call may be made: once, and where it may be repeated once more for every retry. */
    function Tries(): nat {
      1 + if setup.idempotent then setup.retries else 0
    }

    /** _generate_with_retry: only the model call is repeated. */
    method GenerateWithRetry(messages: seq<Message>) returns (r: Result<Response, Exn>)
      modifies this`attempts
      ensures old(attempts) < attempts <= old(attempts) + 1 + if setup.idempotent then setup.retries else 0
      ensures r == setup.generate(attempts - 1, messages)
      ensures forall n | old(attempts) <= n < attempts - 1 :: setup.generate(n, messages).Failure?
      ensures r.Failure? ==> attempts == old(attempts) + Tries()
    {
      var attempt := 0;
      while true
        invariant attempts == old(attempts) + attempt && attempt < Tries()
        invariant forall n | old(attempts) <= n < attempts :: setup.generate(n, messages).Failure?
        decreases setup.retries - attempt
      {
        r := setup.generate(attempts, messages);
        attempts := attempts + 1;
        if r.Success? { return; }
        if !(setup.idempotent && attempt < setup.retries) { return; }
        attempt := attempt + 1;
      }
    }

    /** _invoke_tool: the tool is run only if the agent has it and its identity was granted what it requires. */
    method InvokeTool(key: CallKey) returns (out: Outcome, ghost h: How)
      modifies this`invocations, this`entered, this`runs
      ensures out == if IsExpand(setup, key.name) then Expand(setup, graph.State(), key.args) else Invoke(setup, old(invocations), key)
      ensures Explained(setup, LogRecord(key.name, key.args, out.text, out.error), h)
      ensures runs == old(runs) + if h.Ran? then [key] else []
      ensures entered == old(entered) + [key]
    {
      hide Expand, GivenBy, Permitted;
      ghost var n := invocations;
      if IsExpand(setup, key.name) {
        out := Expand(setup, graph.State(), key.args);
        h := Expanded;
      } else if key.name !in setup.tools {
        out := Refused("no such tool '" + key.name + "'");
        h := Refusal;
      } else {
        var tool := setup.tools[key.name];
        var missing := if setup.identity.Some? then Workers.Missing(setup.identity.value, tool.requires_) else [];
        if missing != [] {
          out := Refused("identity '" + setup.identity.value.name + "' lacks capability/capabilities [" + Workers.Join(missing) + "]");
          h := Refusal;
        } else {
          var answer := tool.run(invocations, key.args);
          runs, h := runs + [key], Ran(invocations);
          match answer {
            case Returned(v) => out := Outcome(setup.show(v), None, v);
            case Raised(e) =>
              var error := e.typeName + ": " + e.message;
              out := Outcome("Error calling " + key.name + ": " + error, Some(error), Null);
          }
        }
      }
      if !h.Expanded? {
        InvokeGives(setup, n, key);
        if h.Refusal? { RefusedWhenever(setup, n, LogRecord(key.name, key.args, out.text, out.error)); }
      }
      invocations, entered := invocations + 1, entered + [key];
    }

    /** _mindgraph_tool_message: the result becomes a node, the model is shown a reference to it. */
    method Keep(key: CallKey, out: Outcome) returns (text: string)
      modifies graph
      ensures var r := Added(setup, old(graph.State()), key, out, setup.dedup);
        r.Success? && graph.State() == r.value.0 && text == Reference(r.value.1)
    {
      hide ResultContent, Reference;
      var node := graph.AddNode(ResultContent(setup, key.name, out), [], None, if setup.dedup then Some(key) else None);
      text := Reference(node.value);
    }

    /** One requested call: its answer, and its record in the log. */
    method Respond(call: ToolCall, ghost g0: Graph<CallKey>) returns (text: string)
      requires Told(setup, log, how, runs)
      modifies this`log, this`invocations, this`entered, this`runs, this`how, graph
      ensures Told(setup, log, how, runs)
      ensures |log| == |old(log)| + 1 && old(log) <= log && log[|old(log)|].name == call.name && log[|old(log)|].args == call.args
      ensures !(setup.useGraph && call.name != EXPAND) ==> text == log[|old(log)|].result
      ensures IsExpand(setup, call.name) ==>
        var out := Expand(setup, old(graph.State()), call.args);
        log[|old(log)|].result == out.text && log[|old(log)|].error == out.error
      ensures old(Going(setup, g0, graph.State(), log, entered)) ==>
        && Going(setup, g0, graph.State(), log, entered) && Grows(old(graph.State()), graph.State())
        && (setup.useGraph && call.name != EXPAND ==> Shows(setup, graph.State(), call, text))
    {
      hide Invoke, Expand, Going, Added, Remembered, Reference, Sane, Grows, Told, Explained;
      var key := CallKey(call.name, call.args);
      ghost var g, log0, entered0 := graph.State(), log, entered;
      if setup.useGraph && setup.dedup && call.name != EXPAND {
        var cached := graph.GetByKey(key);
        if cached.Some? {
          var (result, error) := Remembered(cached.value.content);
          text := Reference(cached.value);
          FromCache(setup, log, how, runs, LogRecord(call.name, call.args, result, error));
          log, how := log + [LogRecord(call.name, call.args, result, error)], how + [Recalled];
          AddNoRun(runs);
          if Going(setup, g0, g, log0, entered0) { ReusedCall(setup, g0, g, log0, entered0, call); }
          return;
        }
      }
      ghost var runs0, h := runs, Refusal;
      var out;
      out, h := InvokeTool(key);
      TellsMore(setup, log, how, runs0, LogRecord(call.name, call.args, out.text, out.error), h);
      log, how := log + [LogRecord(call.name, call.args, out.text, out.error)], how + [h];
      if setup.useGraph && call.name != EXPAND {
        text := Keep(key, out);
        if Going(setup, g0, g, log0, entered0) {
          NotExpand(setup, call.name);
          FreshCall(setup, g0, g, log0, entered0, call, old(invocations));
        }
      } else {
        text := out.text;
        if Going(setup, g0, g, log0, entered0) {
          PlainGoes(setup, g0, g, log0, entered0, key, out, old(invocations));
          GrowsSelf(g);
        }
      }
    }

    /** The calls of one assistant message, in order, one answer each. */
    method RespondAll(calls: seq<ToolCall>, ghost g0: Graph<CallKey>) returns (answers: seq<string>)
      requires Told(setup, log, how, runs)
      modifies this`log, this`invocations, this`entered, this`runs, this`how, graph
      ensures Told(setup, log, how, runs)
      ensures |answers| == |calls| && Logged(log) == old(Logged(log)) + KeysOf(calls)
      ensures forall replies | PlainlyShown(setup, replies, old(log)) :: PlainlyShown(setup, replies + answers, log)
      ensures old(Going(setup, g0, graph.State(), log, entered)) ==>
        && Going(setup, g0, graph.State(), log, entered) && Grows(old(graph.State()), graph.State())
        && (setup.useGraph ==> AnswersShown(setup, graph.State(), Exchange("", calls, answers)))
    {
      hide Going, Grows, Shows, Told;
      answers := [];
      NothingReplied(setup, log);
      ghost var g := graph.State();
      ghost var fine := Going(setup, g0, g, log, entered);
      GrowsSelf(g);
      while |answers| < |calls|
        invariant |answers| <= |calls| && Logged(log) == old(Logged(log)) + KeysOf(calls)[..|answers|]
        invariant Told(setup, log, how, runs)
        invariant forall replies | PlainlyShown(setup, replies, old(log)) :: PlainlyShown(setup, replies + answers, log)
        invariant fine ==> Going(setup, g0, graph.State(), log, entered) && Grows(g, graph.State())
        invariant fine && setup.useGraph ==> AnswersShown(setup, graph.State(), Exchange("", calls, answers))
      {
        ghost var before, sofar, log0 := graph.State(), answers, log;
        var text := Respond(calls[|answers|], g0);
        answers := answers + [text];
        OneMoreLogged(log0, log, calls, |sofar|);
        OneMoreReplied(setup, old(log), log0, log, sofar, text);
        if fine {
          GrowsTrans(g, before, graph.State());
          if setup.useGraph {
            AnswersShownGrows(setup, before, graph.State(), Exchange("", calls, sofar));
            OneMoreShown(setup, graph.State(), calls, sofar, text);
          }
        }
      }
    }

    /** _remember_turn: the prompt and the final answer, and nothing of the loop's own messages. */
    method RememberTurn(content: string)
      modifies this`memory
      ensures memory == old(memory) + [User(setup.prompt), Assistant(content, [])]
    {
      memory := memory + [User(setup.prompt)];
      memory := memory + [Assistant(content, [])];
    }

    /** One assistant message with calls: it and the answers to its calls join the messages. */
    method Converse(response: Response, sent: seq<Message>, ghost start: seq<Message>, ghost es: seq<Exchange>, ghost g0: Graph<CallKey>)
      returns (more: seq<Message>, ghost es': seq<Exchange>)
      requires response.calls != [] && Sent(setup, start, es, sent, log) && Told(setup, log, how, runs)
      modifies this`log, this`invocations, this`entered, this`runs, this`how, graph
      ensures Sent(setup, start, es', more, log) && |es'| == |es| + 1 && Told(setup, log, how, runs)
      ensures es <= es' && es'[|es|].text == response.content && es'[|es|].calls == response.calls
      ensures old(Fine(setup, g0, graph.State(), log, entered, es)) ==> Fine(setup, g0, graph.State(), log, entered, es')
    {
      hide Going, Grows, AnswersShown, AllShown, Told, PlainlyShown;
      ghost var before := graph.State();
      ghost var fine := Fine(setup, g0, before, log, entered, es);
      var answers := RespondAll(response.calls, g0);
      ghost var e := Exchange(response.content, response.calls, answers);
      if fine && setup.useGraph {
        AnswersShownWhatever(setup, graph.State(), response.content, response.calls, answers);
        OneMoreExchange(setup, before, graph.State(), es, e);
      }
      ExchangeAdded(es, e);
      more := sent + [Assistant(response.content, response.calls)] + Answered(response.calls, answers);
      es' := es + [e];
      assert more == start + Transcript(es');
    }

    /**
     The loop.  Whatever the provider does: the transcript is the history, the prompt and complete
     exchanges; every requested call is logged, in order; generate is called at most once a
     turn, and once more for every retry of an idempotent agent; and memory grows by one user/assistant pair or not at all.  With pure tools and a graph in
     agreement with them the log is the tools' own results, no cached call is entered twice, and every
     answer shows a node that holds its result.
     */
    method Run() returns (r: Result<string, LoopError>, ghost messages: seq<Message>, ghost es: seq<Exchange>)
      modifies this`memory, this`log, this`attempts, this`invocations, this`entered, this`runs, this`how, graph
      ensures Told(setup, log, how, runs) && forall i | 0 <= i < |runs| :: Permitted(setup, runs[i].name)
      ensures PlainlyShown(setup, Replies(es), log)
      ensures AllComplete(es) && messages == (if setup.remembers then old(memory) else []) + [User(setup.prompt)] + Transcript(es)
      ensures Logged(log) == Requested(es)
      ensures |es| <= setup.maxTurns
      ensures attempts <= old(attempts) + setup.maxTurns * (1 + if setup.idempotent then setup.retries else 0)
      ensures Prompted(setup, (if setup.remembers then old(memory) else []) + [User(setup.prompt)], es)
      ensures match r
        case Success(content) => attempts > 0 && setup.generate(attempts - 1, messages) == Success(Response(content, []))
        case Failure(ProviderFailed(e)) => attempts > 0 && setup.generate(attempts - 1, messages) == Failure(e)
        case Failure(TooManyTurns) => |es| == setup.maxTurns
      ensures memory == if r.Success? && setup.remembers then old(memory) + [User(setup.prompt), Assistant(r.value, [])] else old(memory)
      ensures old(Sane(setup, graph.State())) ==>
        && Going(setup, old(graph.State()), graph.State(), log, entered)
        && (setup.useGraph ==> AllShown(setup, graph.State(), es))
    {
      hide Going, Sane, AllShown, Fine, Sent, Told, PlainlyShown, Permitted, Prompted, Complete, AllComplete, Transcript, Requested, Replies, Logged;
      ghost var g0 := graph.State();
      ghost var fine := Sane(setup, g0);
      var history := if setup.remembers then memory else [];
      var sent := history + [User(setup.prompt)];
      ghost var start := sent;
      log, entered, runs, how, es := [], [], [], [], [];
      NothingSent(setup, start);
      if fine { FineStarts(setup, g0); }
      var turn := 0;
      while turn < setup.maxTurns
        invariant |es| == turn <= setup.maxTurns && Sent(setup, start, es, sent, log) && Told(setup, log, how, runs)
        invariant Prompted(setup, start, es)
        invariant memory == old(memory) && attempts <= old(attempts) + turn * Tries()
        invariant fine ==> Fine(setup, g0, graph.State(), log, entered, es)
      {
        var response := GenerateWithRetry(sent);
        TurnsAdd(turn, setup.maxTurns, Tries());
        if response.Failure? {
          Ends(setup, start, es, sent, log, how, runs, g0, graph.State(), entered);
          return Failure(ProviderFailed(response.error)), sent, es;
        }
        if response.value.calls == [] {
          Ends(setup, start, es, sent, log, how, runs, g0, graph.State(), entered);
          if setup.remembers { RememberTurn(response.value.content); }
          return Success(response.value.content), sent, es;
        }
        ghost var es0, sent0, log0 := es, sent, log;
        sent, es := Converse(response.value, sent, start, es, g0);
        PromptedAgain(setup, start, es0, es, sent0, log0, sent, log, attempts - 1, response.value);
        turn := turn + 1;
      }
      Ends(setup, start, es, sent, log, how, runs, g0, graph.State(), entered);
      return Failure(TooManyTurns), sent, es;
    }
  }

  /** What was sent so far, and what was logged for it. */
  ghost predicate Sent(s: Setup, start: seq<Message>, es: seq<Exchange>, sent: seq<Message>, log: seq<LogRecord>) {
    AllComplete(es) && sent == start + Transcript(es) && Logged(log) == Requested(es) && PlainlyShown(s, Replies(es), log)
  }

  ghost predicate Fine(s: Setup, g0: Graph<CallKey>, g: Graph<CallKey>, log: seq<LogRecord>, entered: seq<CallKey>, es: seq<Exchange>) {
    Going(s, g0, g, log, entered) && (s.useGraph ==> AllShown(s, g, es))
  }

  /** One exchange was had on everything that was said before it. */
  ghost predicate PromptedBy(s: Setup, start: seq<Message>, es: seq<Exchange>, i: nat)
    requires i < |es| && AllComplete(es)
  {
    exists n: nat :: s.generate(n, start + Transcript(es[..i])) == Success(Response(es[i].text, es[i].calls))
  }

  /** Every exchange is what the model answered to everything that was said before it. */
  ghost predicate Prompted(s: Setup, start: seq<Message>, es: seq<Exchange>) {
    AllComplete(es) && forall i | 0 <= i < |es| :: PromptedBy(s, start, es, i)
  }

  lemma PromptedAgain(s: Setup, start: seq<Message>, es: seq<Exchange>, es': seq<Exchange>, sent: seq<Message>, log: seq<LogRecord>,
                      sent': seq<Message>, log': seq<LogRecord>, n: nat, response: Response)
    requires Prompted(s, start, es) && Sent(s, start, es, sent, log) && Sent(s, start, es', sent', log') && es <= es' && |es'| == |es| + 1
    requires s.generate(n, sent) == Success(response) && es'[|es|].text == response.content && es'[|es|].calls == response.calls
    ensures Prompted(s, start, es')
  {
    hide PlainlyShown, Transcript, Complete;
    forall i | 0 <= i < |es'| ensures PromptedBy(s, start, es', i) {
      assert es'[..i] == es[..i];
      if i < |es| {
        assert PromptedBy(s, start, es, i);
      } else {
        assert es[..i] == es;
      }
    }
  }

  lemma NothingSent(s: Setup, start: seq<Message>)
    ensures Sent(s, start, [], start, []) && Told(s, [], [], []) && Prompted(s, start, [])
  {
    assert start + [] == start;
  }

  lemma FineStarts(s: Setup, g: Graph<CallKey>)
    requires Sane(s, g)
    ensures Fine(s, g, g, [], [], [])
  {
    GoingStarts(s, g);
  }

  lemma Ends(s: Setup, start: seq<Message>, es: seq<Exchange>, sent: seq<Message>, log: seq<LogRecord>, how: seq<How>, runs: seq<CallKey>,
             g0: Graph<CallKey>, g: Graph<CallKey>, entered: seq<CallKey>)
    requires Sent(s, start, es, sent, log) && Told(s, log, how, runs)
    ensures AllComplete(es) && sent == start + Transcript(es) && Logged(log) == Requested(es) && PlainlyShown(s, Replies(es), log)
    ensures Fine(s, g0, g, log, entered, es) ==> Going(s, g0, g, log, entered) && (s.useGraph ==> AllShown(s, g, es))
    ensures forall i | 0 <= i < |runs| :: Permitted(s, runs[i].name)
  {
    OnlyPermittedRun(s, log, how, runs);
  }

  lemma RefusedWhenever(s: Setup, n: nat, r: LogRecord)
    requires GivenBy(s, n, r) && !Permitted(s, r.name)
    ensures GivenBy(s, 0, r)
  {
  }

  lemma AddNoRun(runs: seq<CallKey>)
    ensures runs + [] == runs
  {
  }

  lemma FromCache(s: Setup, log: seq<LogRecord>, how: seq<How>, runs: seq<CallKey>, r: LogRecord)
    requires Told(s, log, how, runs) && Cached(s, CallKey(r.name, r.args))
    ensures Told(s, log + [r], how + [Recalled], runs)
  {
    TellsMore(s, log, how, runs, r, Recalled);
    AddNoRun(runs);
  }

  lemma NothingReplied(s: Setup, log: seq<LogRecord>)
    ensures forall replies | PlainlyShown(s, replies, log) :: PlainlyShown(s, replies + [], log)
  {
    forall replies | PlainlyShown(s, replies, log) ensures PlainlyShown(s, replies + [], log) {
      assert replies + [] == replies;
    }
  }

  lemma OneMoreLogged(before: seq<LogRecord>, log: seq<LogRecord>, calls: seq<ToolCall>, n: nat)
    requires n < |calls| && |log| == |before| + 1 && before <= log
    requires log[|before|].name == calls[n].name && log[|before|].args == calls[n].args
    ensures Logged(log) == Logged(before) + [KeysOf(calls)[n]] && KeysOf(calls)[..n + 1] == KeysOf(calls)[..n] + [KeysOf(calls)[n]]
  {
  }

  lemma OneMoreReplied(s: Setup, start: seq<LogRecord>, before: seq<LogRecord>, log: seq<LogRecord>, answers: seq<string>, text: string)
    requires |log| == |before| + 1 && before <= log
    requires !(s.useGraph && log[|before|].name != EXPAND) ==> text == log[|before|].result
    requires forall replies | PlainlyShown(s, replies, start) :: PlainlyShown(s, replies + answers, before)
    ensures forall replies | PlainlyShown(s, replies, start) :: PlainlyShown(s, replies + (answers + [text]), log)
  {
    forall replies | PlainlyShown(s, replies, start) ensures PlainlyShown(s, replies + (answers + [text]), log) {
      assert PlainlyShown(s, replies + answers, before);
      assert replies + (answers + [text]) == (replies + answers) + [text];
    }
  }

  lemma OneMoreExchange(s: Setup, g: Graph<CallKey>, g': Graph<CallKey>, es: seq<Exchange>, e: Exchange)
    requires AllShown(s, g, es) && Grows(g, g') && AnswersShown(s, g', e)
    ensures AllShown(s, g', es + [e])
  {
    hide AnswersShown, Grows;
    AllShownGrows(s, g, g', es);
  }

  /** One tool message per call. */
  function Answered(calls: seq<ToolCall>, answers: seq<string>): seq<Message>
    requires |answers| == |calls|
  {
    seq(|calls|, k requires 0 <= k < |calls| => Answer(calls[k].id, answers[k]))
  }

  lemma TurnsAdd(turn: nat, max: nat, tries: nat)
    requires turn < max
    ensures turn * tries + tries == (turn + 1) * tries <= max * tries
  {
    Times(turn + 1, max, tries);
  }

  lemma Times(a: nat, b: nat, c: nat)
    requires a <= b
    ensures a * c <= b * c
  {
  }

  lemma ExchangeAdded(es: seq<Exchange>, e: Exchange)
    requires AllComplete(es) && Complete(e)
    ensures AllComplete(es + [e])
    ensures Transcript(es + [e]) == Transcript(es) + ([Assistant(e.text, e.calls)] + Answered(e.calls, e.answers))
    ensures Requested(es + [e]) == Requested(es) + KeysOf(e.calls) && Replies(es + [e]) == Replies(es) + e.answers
  {
    assert (es + [e])[..|es|] == es;
    assert Rendered(e) == [Assistant(e.text, e.calls)] + Answered(e.calls, e.answers);
  }

  lemma NotExpand(s: Setup, name: string)
    requires name != EXPAND
    ensures !IsExpand(s, name)
  {
  }

  lemma AnswersShownWhatever(s: Setup, g: Graph<CallKey>, text: string, calls: seq<ToolCall>, answers: seq<string>)
    requires AnswersShown(s, g, Exchange("", calls, answers))
    ensures AnswersShown(s, g, Exchange(text, calls, answers))
  {
    hide Shows;
  }

  lemma OneMoreShown(s: Setup, g: Graph<CallKey>, calls: seq<ToolCall>, answers: seq<string>, text: string)
    requires AnswersShown(s, g, Exchange("", calls, answers)) && |answers| < |calls|
    requires calls[|answers|].name != EXPAND ==> Shows(s, g, calls[|answers|], text)
    ensures AnswersShown(s, g, Exchange("", calls, answers + [text]))
  {
    hide Shows;
  }

  /** A call answered from the cache. */
  lemma ReusedCall(s: Setup, g0: Graph<CallKey>, g: Graph<CallKey>, log: seq<LogRecord>, entered: seq<CallKey>, call: ToolCall)
    requires Going(s, g0, g, log, entered) && Live(g, CallKey(call.name, call.args))
    ensures var node := g.nodes[g.index[CallKey(call.name, call.args)]];
      var (result, error) := Remembered(node.content);
      && Going(s, g0, g, log + [LogRecord(call.name, call.args, result, error)], entered)
      && Grows(g, g) && Shows(s, g, call, Reference(node))
  {
    hide Remembered, Reference, Answers, RecordAgrees, EnteredOnce, AllLive, Sane;
    var key := CallKey(call.name, call.args);
    var id := g.index[key];
    var (result, error) := Remembered(g.nodes[id].content);
    ReuseGoes(s, g0, g, log, entered, key);
    LogGrows(s, log, LogRecord(call.name, call.args, result, error));
    GrowsSelf(g);
    NamedUnderOwnId(s, g, id);
    assert ShowsNode(s, g, call, Reference(g.nodes[id]), id);
  }

  /** A call answered by the tool and kept in the graph. */
  lemma FreshCall(s: Setup, g0: Graph<CallKey>, g: Graph<CallKey>, log: seq<LogRecord>, entered: seq<CallKey>, call: ToolCall, n: nat)
    requires Going(s, g0, g, log, entered) && s.useGraph && call.name != EXPAND && !(s.dedup && Live(g, CallKey(call.name, call.args)))
    ensures var key := CallKey(call.name, call.args);
      var out := Invoke(s, n, key);
      var r := Added(s, g, key, out, s.dedup);
      && r.Success? && Grows(g, r.value.0)
      && Going(s, g0, r.value.0, log + [LogRecord(call.name, call.args, out.text, out.error)], entered + [key])
      && Shows(s, r.value.0, call, Reference(r.value.1))
  {
    hide Invoke, Added, Reference, Going, Answers, Grows;
    var key := CallKey(call.name, call.args);
    FreshGoes(s, g0, g, log, entered, key, n);
    var (g', node) := Added(s, g, key, Invoke(s, n, key), s.dedup).value;
    assert ShowsNode(s, g', call, Reference(node), node.id);
  }

  /**
   Two agents with the same pure tools, one reusing results and one not: if their models ask for the same
   calls, the logs are the same, and the reusing agent enters no tool twice for one call, nor for a call
   that was cached before.
   */
  method RunWithAndWithoutReuse(reusing: ModelAgent, plain: ModelAgent)
    returns (a: Result<string, LoopError>, b: Result<string, LoopError>)
    requires reusing != plain && reusing.graph != plain.graph && SameTools(reusing.setup, plain.setup)
    requires reusing.setup.useGraph && reusing.setup.dedup && !plain.setup.dedup
    requires Sane(reusing.setup, reusing.graph.State()) && Sane(plain.setup, plain.graph.State())
    modifies reusing`memory, reusing`log, reusing`attempts, reusing`invocations, reusing`entered, reusing`runs, reusing`how, reusing.graph
    modifies plain`memory, plain`log, plain`attempts, plain`invocations, plain`entered, plain`runs, plain`how, plain.graph
    ensures Logged(reusing.log) == Logged(plain.log) && NoExpand(reusing.log) ==> reusing.log == plain.log
    ensures EnteredOnce(reusing.setup, old(reusing.graph.State()), reusing.entered)
  {
    hide Sane, Grows, EnteredOnce, LogAgrees, Logged, NoExpand, AllLive, AllShown, AllComplete, Transcript, Requested;
    ghost var messages, es;
    a, messages, es := reusing.Run();
    b, messages, es := plain.Run();
    if Logged(reusing.log) == Logged(plain.log) && NoExpand(reusing.log) {
      DedupKeepsLog(reusing.setup, plain.setup, reusing.log, plain.log);
    }
  }
}
