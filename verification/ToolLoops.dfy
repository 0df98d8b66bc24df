/**
 The tool-calling loop of a model agent: model calls with retries, tools called and answered in order,
 results kept as nodes of a context graph that doubles as a cache of calls.
 */
module ToolLoops {
  import opened Wrappers
  import opened Values
  import opened Runtime
  import opened Workers
  import opened Graphs
  import opened GraphLaws
  import opened MindGraphs
  import StepRecords

  type Args = map<string, Value>

  /** A tool's name and arguments: what the dedup key encodes, argument order aside. */
  datatype CallKey = CallKey(name: string, args: Args)

  datatype ToolCall = ToolCall(id: string, name: string, args: Args)

  datatype Message = User(text: string) | Assistant(text: string, calls: seq<ToolCall>) | Answer(callId: string, text: string)

  /** `content` is already "" where the provider gave none. */
  datatype Response = Response(content: string, calls: seq<ToolCall>)

  datatype LogRecord = LogRecord(name: string, args: Args, result: string, error: Option<string>)

  /** What a call does may depend on how many were made before, unless the tool is pure. */
  datatype LoopTool = LoopTool(requires_: seq<string>, run: (nat, Args) -> Attempt)

  datatype Setup = Setup(
    tools: map<string, LoopTool>,
    generate: (nat, seq<Message>) -> Result<Response, Exn>,     // by number of the attempt
    maxTurns: nat, idempotent: bool, retries: nat,
    useGraph: bool, dedup: bool,
    identity: Option<Agent>, remembers: bool, prompt: string,
    show: Value -> string,                                      // str(value)
    expanded: Value -> string,                                  // what expand_node returns for a value
    summarize: (string, Value) -> string)

  datatype LoopError = ProviderFailed(exn: Exn) | TooManyTurns

  const EXPAND: string := "expand_node"

  /** Result text, error, and the tool's own value (Null where there is none). */
  datatype Outcome = Outcome(text: string, error: Option<string>, raw: Value)

  function Refused(error: string): Outcome {
    Outcome("Error: " + error, Some(error), Null)
  }

  /** _invoke_tool for one of the agent's own tools, as the n-th invocation. */
  function Invoke(s: Setup, n: nat, key: CallKey): Outcome {
    if key.name !in s.tools then Refused("no such tool '" + key.name + "'")
    else
      var tool := s.tools[key.name];
      if s.identity.Some? && Missing(s.identity.value, tool.requires_) != [] then
        Refused("identity '" + s.identity.value.name + "' lacks capability/capabilities ["
                + Workers.Join(Missing(s.identity.value, tool.requires_)) + "]")
      else match tool.run(n, key.args)
        case Returned(v) => Outcome(s.show(v), None, v)
        case Raised(e) =>
          var error := e.typeName + ": " + e.message;
          Outcome("Error calling " + key.name + ": " + error, Some(error), Null)
  }

  // ---------------------------------------------------------------- what a call is answered with

  /** The agent has the tool, and its identity, if it has one, was granted all the tool requires. */
  predicate Permitted(s: Setup, name: string) {
    name in s.tools &&
    (s.identity.Some? ==> forall k | 0 <= k < |s.tools[name].requires_| :: s.tools[name].requires_[k] in s.identity.value.capabilities)
  }

  /**
   The record of a call as the n-th invocation.  An unknown tool, or one the identity lacks a capability for,
   is answered with the refusal; otherwise the tool's value is shown, or its exception's type and text.
   */
  predicate GivenBy(s: Setup, n: nat, r: LogRecord) {
    if r.name !in s.tools then
      r.error == Some("no such tool '" + r.name + "'") && r.result == "Error: " + r.error.value
    else if !Permitted(s, r.name) then
      var lacking := StepRecords.Lacking(s.identity.value, s.tools[r.name].requires_);
      && r.error == Some("identity '" + s.identity.value.name + "' lacks capability/capabilities [" + StepRecords.Listed(lacking) + "]")
      && r.result == "Error: " + r.error.value
    else match s.tools[r.name].run(n, r.args)
      case Returned(v) => r.result == s.show(v) && r.error.None?
      case Raised(e) =>
        r.error == Some(e.typeName + ": " + e.message) && r.result == "Error calling " + r.name + ": " + r.error.value
  }

  lemma InvokeGives(s: Setup, n: nat, key: CallKey)
    ensures var out := Invoke(s, n, key); GivenBy(s, n, LogRecord(key.name, key.args, out.text, out.error))
    ensures Permitted(s, key.name) <==>
      key.name in s.tools && !(s.identity.Some? && Missing(s.identity.value, s.tools[key.name].requires_) != [])
  {
    if key.name in s.tools && s.identity.Some? {
      StepRecords.MissingIsLacking(s.identity.value, s.tools[key.name].requires_);
      StepRecords.JoinIsListed(Missing(s.identity.value, s.tools[key.name].requires_));
    }
    hide StepRecords.Lacking, StepRecords.Listed, Workers.Join, Missing;
  }

  /** How a logged call was dealt with: the tool was run, or refused, its result recalled, or the loop's own tool answered. */
  datatype How = Ran(n: nat) | Refusal | Recalled | Expanded

  predicate Explained(s: Setup, r: LogRecord, how: How) {
    match how
    case Ran(n) => Permitted(s, r.name) && GivenBy(s, n, r)
    case Refusal => !Permitted(s, r.name) && GivenBy(s, 0, r)
    case Recalled => Cached(s, CallKey(r.name, r.args))
    case Expanded => s.useGraph && r.name == "expand_node" && r.name !in s.tools
  }

  /** The calls whose tool was run, in order. */
  function RunsOf(log: seq<LogRecord>, how: seq<How>): seq<CallKey>
    requires |how| == |log|
  {
    if log == [] then []
    else
      var r := log[|log| - 1];
      RunsOf(log[..|log| - 1], how[..|log| - 1]) + if how[|log| - 1].Ran? then [CallKey(r.name, r.args)] else []
  }

  /** Every record is explained, and the tools that were run are exactly those of the records that say so. */
  ghost predicate Told(s: Setup, log: seq<LogRecord>, how: seq<How>, runs: seq<CallKey>) {
    |how| == |log| && (forall i | 0 <= i < |log| :: Explained(s, log[i], how[i])) && runs == RunsOf(log, how)
  }

  lemma TellsMore(s: Setup, log: seq<LogRecord>, how: seq<How>, runs: seq<CallKey>, r: LogRecord, h: How)
    requires Told(s, log, how, runs) && Explained(s, r, h)
    ensures Told(s, log + [r], how + [h], runs + if h.Ran? then [CallKey(r.name, r.args)] else [])
  {
    hide Explained;
    assert (log + [r])[..|log|] == log && (how + [h])[..|log|] == how;
  }

  /** No tool is ever run that the agent does not have or its identity lacks a capability for. */
  lemma {:induction false} OnlyPermittedRun(s: Setup, log: seq<LogRecord>, how: seq<How>, runs: seq<CallKey>)
    requires Told(s, log, how, runs)
    ensures forall i | 0 <= i < |runs| :: Permitted(s, runs[i].name)
    decreases |log|
  {
    hide Permitted, GivenBy;
    if log != [] { OnlyPermittedRun(s, log[..|log| - 1], how[..|log| - 1], RunsOf(log[..|log| - 1], how[..|log| - 1])); }
  }

  /** expand_node(node_id): the node's full value; an unknown id is an answer, not an error. */
  function Expand(s: Setup, g: Graph<CallKey>, args: Args): Outcome {
    if args.Keys != {"node_id"} then
      var error := "TypeError: expand_node() takes exactly node_id";
      Outcome("Error calling expand_node: " + error, Some(error), Null)
    else
      var id := args["node_id"];
      var text := if id.Str? && id.text in g.nodes then s.expanded(g.nodes[id.text].content.full)
                  else "Error: no such node '" + s.show(id) + "'";
      Outcome(text, None, Str(text))
  }

  /** The loop's own expand_node, unless the agent has a tool of that name. */
  predicate IsExpand(s: Setup, name: string) {
    s.useGraph && name == EXPAND && EXPAND !in s.tools
  }

  /** The node kept for a result: an error as it is, a value under its summary. */
  function ResultContent(s: Setup, name: string, out: Outcome): Content {
    var metadata := map["tool" := Str(name), "result_text" := Str(out.text),
                        "error" := if out.error.Some? then Str(out.error.value) else Null];
    if out.error.Some? then Content("tool_error", out.text, Str(out.text), metadata)
    else
      var source := if out.raw != Null then out.raw else Str(out.text);
      Content("tool_result", s.summarize(name, source), source, metadata)
  }

  /** What a cached node says the call gave. */
  function Remembered(c: Content): (string, Option<string>) {
    (if "result_text" in c.metadata && c.metadata["result_text"].Str? then c.metadata["result_text"].text else c.summary,
     if "error" in c.metadata && c.metadata["error"].Str? then Some(c.metadata["error"].text) else None)
  }

  lemma RememberedIs(s: Setup, name: string, out: Outcome)
    ensures Remembered(ResultContent(s, name, out)) == (out.text, out.error)
  {
  }

  /** _node_reference_text */
  function Reference(node: Node): string {
    if node.content.kind == "tool_error" then node.content.summary
    else "[" + node.id + "] " + node.content.summary + "\n(This is a summary. Call expand_node(node_id=\"" + node.id
         + "\") for the exact, full value if you need precision the summary doesn't give you.)"
  }

  // ---------------------------------------------------------------- the cache

  /** What a tool does depends on its arguments only. */
  ghost predicate Pure(s: Setup) {
    forall name, m, n, args | name in s.tools :: s.tools[name].run(m, args) == s.tools[name].run(n, args)
  }

  lemma PureInvokes(s: Setup, m: nat, n: nat, key: CallKey)
    requires Pure(s)
    ensures Invoke(s, m, key) == Invoke(s, n, key)
  {
    if key.name in s.tools { assert s.tools[key.name].run(m, key.args) == s.tools[key.name].run(n, key.args); }
  }

  predicate Live(g: Graph<CallKey>, key: CallKey) {
    key in g.index && g.index[key] in g.nodes
  }

  /** The node holds what calling the tool gives. */
  predicate Answers(s: Setup, node: Node, key: CallKey) {
    node.content == ResultContent(s, key.name, Invoke(s, 0, key))
  }

  /** Every live cached call agrees with calling the tool. */
  ghost predicate CacheAgrees(s: Setup, g: Graph<CallKey>) {
    forall key | Live(g, key) :: Answers(s, g.nodes[g.index[key]], key)
  }

  /** No key, live or stale, is registered under an automatic id still to be handed out. */
  ghost predicate IndexFresh(g: Graph<CallKey>) {
    forall key, k | key in g.index && k >= g.nextAuto :: g.index[key] != AutoId(k)
  }

  /** Pure tools, a graph whose cache agrees with them, and automatic ids that clash with nothing. */
  ghost predicate Sane(s: Setup, g: Graph<CallKey>) {
    Pure(s) && CacheAgrees(s, g) && AutoFresh(g) && IndexFresh(g) && forall id | id in g.nodes :: g.nodes[id].id == id
  }

  /** No node is lost or changed. */
  ghost predicate Grows(g: Graph<CallKey>, g': Graph<CallKey>) {
    && (forall id | id in g.nodes :: id in g'.nodes && g'.nodes[id] == g.nodes[id])
    && (forall key | Live(g, key) :: Live(g', key))
  }

  function Added(s: Setup, g: Graph<CallKey>, key: CallKey, out: Outcome, dedup: bool): Result<(Graph<CallKey>, Node), GraphError> {
    Graphs.AddNode(g, ResultContent(s, key.name, out), [], None, if dedup then Some(key) else None)
  }

  lemma IndexStaysFresh(g: Graph<CallKey>, content: Content, key: Option<CallKey>)
    requires IndexFresh(g) && Graphs.AddNode(g, content, [], None, key).Success?
    ensures IndexFresh(Graphs.AddNode(g, content, [], None, key).value.0)
  {
    var g' := Graphs.AddNode(g, content, [], None, key).value.0;
    forall k | k >= g'.nextAuto ensures AutoId(k) != AutoId(g.nextAuto) {
      if AutoId(k) == AutoId(g.nextAuto) { AutoIdInjective(k, g.nextAuto); }
    }
  }

  /** Adding under an id that no node has and no key names: the other keys are live exactly as before. */
  lemma FreshNodeAgrees(s: Setup, g: Graph<CallKey>, g': Graph<CallKey>, node: Node, key: CallKey, dedup: bool)
    requires CacheAgrees(s, g) && node.id !in g.nodes && g'.nodes == g.nodes[node.id := node] && Answers(s, node, key)
    requires g'.index == if dedup then g.index[key := node.id] else g.index
    requires forall k | k in g.index :: g.index[k] != node.id
    ensures CacheAgrees(s, g') && Grows(g, g')
    ensures forall k | Live(g', k) && (!dedup || k != key) :: Live(g, k)
  {
    hide Answers;
  }

  /** Adding a call's own result keeps the cache in agreement and every node as it was. */
  lemma AddingAgrees(s: Setup, g: Graph<CallKey>, key: CallKey, n: nat, dedup: bool)
    requires Sane(s, g)
    ensures var r := Added(s, g, key, Invoke(s, n, key), dedup);
      && r.Success? && Sane(s, r.value.0) && Grows(g, r.value.0)
      && r.value.1.id in r.value.0.nodes && r.value.0.nodes[r.value.1.id] == r.value.1 && Answers(s, r.value.1, key)
      && (dedup ==> Live(r.value.0, key))
      && (forall k | Live(r.value.0, k) && (!dedup || k != key) :: Live(g, k))
  {
    hide Invoke, ResultContent;
    PureInvokes(s, n, 0, key);
    var content, k := ResultContent(s, key.name, Invoke(s, n, key)), if dedup then Some(key) else None;
    AddKeepsAutoFresh(g, content, [], None, k);
    IndexStaysFresh(g, content, k);
    var (g', node) := Graphs.AddNode(g, content, [], None, k).value;
    assert node.id == AutoId(g.nextAuto) && node.id !in g.nodes;
    FreshNodeAgrees(s, g, g', node, key, dedup);
  }

  // ---------------------------------------------------------------- transcripts

  /** One assistant message with tool calls, and the answers to them. */
  datatype Exchange = Exchange(text: string, calls: seq<ToolCall>, answers: seq<string>)

  predicate Complete(e: Exchange) {
    e.calls != [] && |e.answers| == |e.calls|
  }

  /** The assistant message, then exactly one tool message per call, in order, under the call's id. */
  function Rendered(e: Exchange): (ms: seq<Message>)
    requires |e.answers| <= |e.calls|
    ensures |ms| == 1 + |e.answers| && ms[0] == Assistant(e.text, e.calls)
    ensures forall k | 0 <= k < |e.answers| :: ms[1 + k] == Answer(e.calls[k].id, e.answers[k])
  {
    [Assistant(e.text, e.calls)] + seq(|e.answers|, k requires 0 <= k < |e.answers| => Answer(e.calls[k].id, e.answers[k]))
  }

  predicate AllComplete(es: seq<Exchange>) {
    forall i | 0 <= i < |es| :: Complete(es[i])
  }

  function Transcript(es: seq<Exchange>): seq<Message>
    requires AllComplete(es)
  {
    if es == [] then [] else Transcript(es[..|es| - 1]) + Rendered(es[|es| - 1])
  }

  /** The calls requested so far, in order. */
  function Requested(es: seq<Exchange>): seq<CallKey> {
    if es == [] then [] else Requested(es[..|es| - 1]) + KeysOf(es[|es| - 1].calls)
  }

  /** The answers given so far, in order. */
  function Replies(es: seq<Exchange>): seq<string> {
    if es == [] then [] else Replies(es[..|es| - 1]) + es[|es| - 1].answers
  }

  /** Where no node stands for a result, the model is shown the logged text itself. */
  ghost predicate PlainlyShown(s: Setup, replies: seq<string>, log: seq<LogRecord>) {
    |replies| == |log| && forall i | 0 <= i < |log| && !(s.useGraph && log[i].name != "expand_node") :: replies[i] == log[i].result
  }

  /** What was said before comes first. */
  lemma {:induction false} TranscriptSplits(es: seq<Exchange>, more: seq<Exchange>)
    requires AllComplete(es) && AllComplete(more)
    ensures AllComplete(es + more) && Transcript(es + more) == Transcript(es) + Transcript(more)
    decreases |more|
  {
    hide Complete, Rendered;
    if more == [] {
      assert es + more == es;
    } else {
      var init, last := more[..|more| - 1], more[|more| - 1];
      TranscriptSplits(es, init);
      assert (es + more)[..|es + more| - 1] == es + init;
      CompleteAnswers(last);
      Grouped(Transcript(es), Transcript(init), Rendered(last));
    }
  }

  lemma CompleteAnswers(e: Exchange)
    requires Complete(e)
    ensures |e.answers| == |e.calls|
  {
  }

  lemma {:induction false} CallsSplit(es: seq<Exchange>, more: seq<Exchange>)
    ensures Requested(es + more) == Requested(es) + Requested(more) && Replies(es + more) == Replies(es) + Replies(more)
    decreases |more|
  {
    hide KeysOf;
    if more == [] {
      assert es + more == es;
    } else {
      var init, last := more[..|more| - 1], more[|more| - 1];
      CallsSplit(es, init);
      assert (es + more)[..|es + more| - 1] == es + init;
      Grouped(Requested(es), Requested(init), KeysOf(last.calls));
      Grouped(Replies(es), Replies(init), last.answers);
    }
  }

  lemma Grouped<T>(a: seq<T>, b: seq<T>, c: seq<T>)
    ensures a + b + c == a + (b + c)
  {
  }

  function KeysOf(calls: seq<ToolCall>): (keys: seq<CallKey>)
    ensures |keys| == |calls| && forall k | 0 <= k < |calls| :: keys[k] == CallKey(calls[k].name, calls[k].args)
  {
    seq(|calls|, k requires 0 <= k < |calls| => CallKey(calls[k].name, calls[k].args))
  }

  /** What was logged, plain results. */
  function Logged(log: seq<LogRecord>): (keys: seq<CallKey>)
    ensures |keys| == |log| && forall k | 0 <= k < |log| :: keys[k] == CallKey(log[k].name, log[k].args)
  {
    seq(|log|, k requires 0 <= k < |log| => CallKey(log[k].name, log[k].args))
  }

  /** Every logged result is what the pure tool gives. */
  ghost predicate LogAgrees(s: Setup, log: seq<LogRecord>) {
    forall i | 0 <= i < |log| && log[i].name != EXPAND :: RecordAgrees(s, log[i])
  }

  predicate RecordAgrees(s: Setup, r: LogRecord) {
    GivenBy(s, 0, r)
  }

  /** The answer shows a node that holds what the call gives. */
  ghost predicate Shows(s: Setup, g: Graph<CallKey>, call: ToolCall, text: string) {
    exists id :: ShowsNode(s, g, call, text, id)
  }

  predicate ShowsNode(s: Setup, g: Graph<CallKey>, call: ToolCall, text: string, id: NodeId) {
    && id in g.nodes && g.nodes[id].id == id
    && Answers(s, g.nodes[id], CallKey(call.name, call.args)) && text == Reference(g.nodes[id])
  }

  /**
   What the model is shown of a call it has the right to make.  A value is shown as its summary under the
   node's own id, and expand_node with the id in the text gives the whole value; an exception is shown as it is.
   */
  lemma ShownIs(s: Setup, g: Graph<CallKey>, call: ToolCall, text: string, id: NodeId)
    requires ShowsNode(s, g, call, text, id) && Permitted(s, call.name)
    ensures match s.tools[call.name].run(0, call.args)
      case Returned(v) =>
        var source := if v != Null then v else Str(s.show(v));
        && text == "[" + id + "] " + s.summarize(call.name, source) + "\n(This is a summary. Call expand_node(node_id=\"" + id
                   + "\") for the exact, full value if you need precision the summary doesn't give you.)"
        && Expand(s, g, map["node_id" := Str(id)]) == Outcome(s.expanded(source), None, Str(s.expanded(source)))
      case Raised(e) => text == "Error calling " + call.name + ": " + (e.typeName + ": " + e.message)
  {
    PermittedInvokes(s, CallKey(call.name, call.args));
    hide Invoke, Permitted, Reference;
    ExpandGives(s, g, id);
    hide Expand;
    ReferenceIs(g.nodes[id]);
  }

  lemma ExpandGives(s: Setup, g: Graph<CallKey>, id: NodeId)
    requires id in g.nodes
    ensures var full := g.nodes[id].content.full;
      Expand(s, g, map["node_id" := Str(id)]) == Outcome(s.expanded(full), None, Str(s.expanded(full)))
  {
  }

  lemma ReferenceIs(node: Node)
    ensures node.content.kind == "tool_error" ==> Reference(node) == node.content.summary
    ensures node.content.kind == "tool_result" ==>
      Reference(node) == "[" + node.id + "] " + node.content.summary + "\n(This is a summary. Call expand_node(node_id=\"" + node.id
        + "\") for the exact, full value if you need precision the summary doesn't give you.)"
  {
  }

  lemma PermittedInvokes(s: Setup, key: CallKey)
    requires Permitted(s, key.name)
    ensures Invoke(s, 0, key) == match s.tools[key.name].run(0, key.args)
      case Returned(v) => Outcome(s.show(v), None, v)
      case Raised(e) => Outcome("Error calling " + key.name + ": " + (e.typeName + ": " + e.message), Some(e.typeName + ": " + e.message), Null)
  {
    InvokeGives(s, 0, key);
    hide GivenBy;
  }

  /** What the model is shown of a call it has no right to make. */
  lemma ShownRefusal(s: Setup, g: Graph<CallKey>, call: ToolCall, text: string, id: NodeId)
    requires ShowsNode(s, g, call, text, id) && !Permitted(s, call.name)
    ensures exists error :: text == "Error: " + error && GivenBy(s, 0, LogRecord(call.name, call.args, text, Some(error)))
  {
    var key := CallKey(call.name, call.args);
    InvokeGives(s, 0, key);
    var out := Invoke(s, 0, key);
    assert out.error.Some? && text == out.text == "Error: " + out.error.value;
  }

  /** expand_node given anything but a live id: an answer that says so, or an error if it is not given just an id. */
  lemma ExpandRefuses(s: Setup, g: Graph<CallKey>, args: Args)
    requires !(args.Keys == {"node_id"} && args["node_id"].Str? && args["node_id"].text in g.nodes)
    ensures var out := Expand(s, g, args);
      if "node_id" in args && args.Keys == {"node_id"}
      then out.error.None? && out.text == "Error: no such node '" + s.show(args["node_id"]) + "'"
      else out.error.Some? && out.text == "Error calling expand_node: " + out.error.value
  {
  }

  ghost predicate AnswersShown(s: Setup, g: Graph<CallKey>, e: Exchange) {
    forall k | 0 <= k < |e.answers| && k < |e.calls| && e.calls[k].name != EXPAND :: Shows(s, g, e.calls[k], e.answers[k])
  }

  ghost predicate AllShown(s: Setup, g: Graph<CallKey>, es: seq<Exchange>) {
    forall i | 0 <= i < |es| :: AnswersShown(s, g, es[i])
  }

  lemma ShowsGrows(s: Setup, g: Graph<CallKey>, g': Graph<CallKey>, call: ToolCall, text: string)
    requires Shows(s, g, call, text) && Grows(g, g')
    ensures Shows(s, g', call, text)
  {
    hide Answers, Reference;
    var id :| ShowsNode(s, g, call, text, id);
    assert g'.nodes[id] == g.nodes[id];
    assert ShowsNode(s, g', call, text, id);
  }

  lemma AnswersShownGrows(s: Setup, g: Graph<CallKey>, g': Graph<CallKey>, e: Exchange)
    requires AnswersShown(s, g, e) && Grows(g, g')
    ensures AnswersShown(s, g', e)
  {
    hide Shows, Grows;
    forall k | 0 <= k < |e.answers| && k < |e.calls| && e.calls[k].name != EXPAND ensures Shows(s, g', e.calls[k], e.answers[k]) {
      ShowsGrows(s, g, g', e.calls[k], e.answers[k]);
    }
  }

  lemma AllShownGrows(s: Setup, g: Graph<CallKey>, g': Graph<CallKey>, es: seq<Exchange>)
    requires AllShown(s, g, es) && Grows(g, g')
    ensures AllShown(s, g', es)
  {
    hide AnswersShown, Grows;
    forall i | 0 <= i < |es| ensures AnswersShown(s, g', es[i]) { AnswersShownGrows(s, g, g', es[i]); }
  }

  lemma GrowsTrans(a: Graph<CallKey>, b: Graph<CallKey>, c: Graph<CallKey>)
    requires Grows(a, b) && Grows(b, c)
    ensures Grows(a, c)
  {
  }

  lemma GrowsSelf(a: Graph<CallKey>)
    ensures Grows(a, a)
  {
  }

  /** Calls whose results are cached: every call but expand_node, when the graph is used for dedup. */
  predicate Cached(s: Setup, key: CallKey) {
    s.useGraph && s.dedup && key.name != EXPAND
  }

  /** Tools were entered at most once per call, and not at all for calls that were live before. */
  ghost predicate EnteredOnce(s: Setup, before: Graph<CallKey>, entered: seq<CallKey>) {
    forall i | 0 <= i < |entered| && Cached(s, entered[i]) ::
      !Live(before, entered[i]) && forall j | 0 <= j < i :: entered[j] != entered[i]
  }

  ghost predicate AllLive(s: Setup, g: Graph<CallKey>, entered: seq<CallKey>) {
    forall i | 0 <= i < |entered| && Cached(s, entered[i]) :: Live(g, entered[i])
  }

  /** The same tools called in the same name; everything else may differ. */
  ghost predicate SameTools(s: Setup, t: Setup) {
    s.tools == t.tools && s.identity == t.identity && s.show == t.show
  }

  lemma GivenAlike(s: Setup, t: Setup, a: LogRecord, b: LogRecord)
    requires SameTools(s, t) && GivenBy(s, 0, a) && GivenBy(t, 0, b) && a.name == b.name && a.args == b.args
    ensures a == b
  {
    hide StepRecords.Lacking, StepRecords.Listed;
  }

  ghost predicate NoExpand(log: seq<LogRecord>) {
    forall i | 0 <= i < |log| :: log[i].name != EXPAND
  }

  /** Logs in agreement with the same pure tools are record for record the same for the same requested calls. */
  lemma DedupKeepsLog(s: Setup, t: Setup, reusing: seq<LogRecord>, plain: seq<LogRecord>)
    requires SameTools(s, t) && LogAgrees(s, reusing) && LogAgrees(t, plain)
    requires Logged(reusing) == Logged(plain) && NoExpand(reusing)
    ensures reusing == plain
  {
    hide GivenBy;
    forall i | 0 <= i < |reusing| ensures reusing[i] == plain[i] {
      assert Logged(reusing)[i] == Logged(plain)[i];
      GivenAlike(s, t, reusing[i], plain[i]);
    }
  }
}
