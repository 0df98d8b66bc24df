/**
 What holds of the context graph over every run of add, link, collapse and compact, and exactly
 where automatic ids stop it from holding.
 */
module GraphLaws {
  import opened Wrappers
  import opened Numerals
  import opened Values
  import opened Graphs
  import opened Neighborhoods

  // ---------------------------------------------------------------- relinking

  ghost predicate NoRepeats(s: seq<NodeId>) {
    forall i, j | 0 <= i < j < |s| :: s[i] != s[j]
  }

  /** The redirected edge list: old targets that survive, plus the new node iff a folded one was there. */
  lemma {:induction false} RelinkMembers(edges: seq<NodeId>, gone: set<NodeId>, target: NodeId)
    ensures NoRepeats(Relink(edges, gone, target))
    ensures forall t :: t in Relink(edges, gone, target) <==>
      (t in edges && t !in gone) || (t == target && exists e :: e in edges && e in gone)
    decreases |edges|
  {
    if edges != [] {
      var init, last := edges[..|edges| - 1], edges[|edges| - 1];
      assert edges == init + [last];
      RelinkMembers(init, gone, target);
    }
  }

  /** The first of the old edges that becomes t. */
  predicate FirstAt(edges: seq<NodeId>, gone: set<NodeId>, target: NodeId, p: nat, t: NodeId) {
    && p < |edges| && t == (if edges[p] in gone then target else edges[p])
    && forall k | 0 <= k < p :: t != if edges[k] in gone then target else edges[k]
  }

  /** Some old edge becomes t. */
  ghost predicate Becomes(edges: seq<NodeId>, gone: set<NodeId>, target: NodeId, t: NodeId) {
    exists p: nat :: FirstAt(edges, gone, target, p, t)
  }

  /** The new edges stand in the order in which the old ones first became them. */
  ghost predicate InOrder(edges: seq<NodeId>, gone: set<NodeId>, target: NodeId, now: seq<NodeId>) {
    && (forall i | 0 <= i < |now| :: Becomes(edges, gone, target, now[i]))
    && forall i, j, p: nat, q: nat | 0 <= i < j < |now| && FirstAt(edges, gone, target, p, now[i]) && FirstAt(edges, gone, target, q, now[j]) :: p < q
  }

  lemma FirstStays(init: seq<NodeId>, last: NodeId, gone: set<NodeId>, target: NodeId, p: nat, t: NodeId)
    requires p < |init|
    ensures FirstAt(init + [last], gone, target, p, t) <==> FirstAt(init, gone, target, p, t)
  {
    var edges := init + [last];
    assert forall k | 0 <= k <= p :: edges[k] == init[k];
    if FirstAt(edges, gone, target, p, t) {
      forall k | 0 <= k < p ensures t != if init[k] in gone then target else init[k] { assert edges[k] == init[k]; }
    }
    if FirstAt(init, gone, target, p, t) {
      forall k | 0 <= k < p ensures t != if edges[k] in gone then target else edges[k] { assert edges[k] == init[k]; }
    }
  }

  lemma FirstOnce(edges: seq<NodeId>, gone: set<NodeId>, target: NodeId, p: nat, q: nat, t: NodeId, u: NodeId)
    requires FirstAt(edges, gone, target, p, t) && FirstAt(edges, gone, target, q, u)
    ensures t == u <==> p == q
  {
  }

  /** One more old edge moves none of the firsts. */
  lemma OrderStays(init: seq<NodeId>, last: NodeId, gone: set<NodeId>, target: NodeId, now: seq<NodeId>)
    requires InOrder(init, gone, target, now)
    ensures InOrder(init + [last], gone, target, now)
  {
    hide FirstAt;
    var edges := init + [last];
    forall i | 0 <= i < |now| ensures Becomes(edges, gone, target, now[i]) {
      assert Becomes(init, gone, target, now[i]);
      var p: nat :| FirstAt(init, gone, target, p, now[i]);
      FirstWithin(init, gone, target, p, now[i]);
      FirstStays(init, last, gone, target, p, now[i]);
    }
    forall i, j, p: nat, q: nat | 0 <= i < j < |now| && FirstAt(edges, gone, target, p, now[i]) && FirstAt(edges, gone, target, q, now[j]) ensures p < q {
      FirstWas(init, last, gone, target, now, i, p);
      FirstWas(init, last, gone, target, now, j, q);
    }
  }

  lemma FirstWithin(edges: seq<NodeId>, gone: set<NodeId>, target: NodeId, p: nat, t: NodeId)
    requires FirstAt(edges, gone, target, p, t)
    ensures p < |edges|
  {
  }

  lemma FirstWas(init: seq<NodeId>, last: NodeId, gone: set<NodeId>, target: NodeId, now: seq<NodeId>, i: nat, p: nat)
    requires InOrder(init, gone, target, now) && i < |now| && FirstAt(init + [last], gone, target, p, now[i])
    ensures FirstAt(init, gone, target, p, now[i])
  {
    hide FirstAt;
    assert Becomes(init, gone, target, now[i]);
    var p0: nat :| FirstAt(init, gone, target, p0, now[i]);
    FirstWithin(init, gone, target, p0, now[i]);
    FirstStays(init, last, gone, target, p0, now[i]);
    FirstOnce(init + [last], gone, target, p, p0, now[i], now[i]);
  }

  /** A target that the last old edge becomes first stands last. */
  lemma OrderGrows(edges: seq<NodeId>, gone: set<NodeId>, target: NodeId, now: seq<NodeId>, t: NodeId)
    requires InOrder(edges, gone, target, now) && edges != [] && FirstAt(edges, gone, target, |edges| - 1, t) && t !in now
    ensures InOrder(edges, gone, target, now + [t])
  {
    hide FirstAt;
    var more := now + [t];
    assert FirstAt(edges, gone, target, |edges| - 1, t);
    assert forall i | 0 <= i < |more| :: i < |now| ==> more[i] == now[i];
    forall i, j, p: nat, q: nat | 0 <= i < j < |more| && FirstAt(edges, gone, target, p, more[i]) && FirstAt(edges, gone, target, q, more[j]) ensures p < q {
      FirstWithin(edges, gone, target, p, more[i]);
      FirstOnce(edges, gone, target, p, |edges| - 1, more[i], t);
      FirstOnce(edges, gone, target, q, |edges| - 1, more[j], t);
    }
  }

  lemma {:induction false} RelinkOrder(edges: seq<NodeId>, gone: set<NodeId>, target: NodeId)
    ensures InOrder(edges, gone, target, Relink(edges, gone, target))
    decreases |edges|
  {
    if edges != [] {
      hide InOrder, FirstAt;
      var init, last := edges[..|edges| - 1], edges[|edges| - 1];
      assert edges == init + [last];
      RelinkOrder(init, gone, target);
      OrderStays(init, last, gone, target, Relink(init, gone, target));
      var t := Redirect(last, gone, target);
      if t !in Relink(init, gone, target) {
        RelinkMembers(init, gone, target);
        LastIsFirst(edges, gone, target);
        OrderGrows(edges, gone, target, Relink(init, gone, target), t);
      }
    }
  }

  lemma LastIsFirst(edges: seq<NodeId>, gone: set<NodeId>, target: NodeId)
    requires edges != []
    requires var before, t := Relink(edges[..|edges| - 1], gone, target), Redirect(edges[|edges| - 1], gone, target); t !in before
    ensures FirstAt(edges, gone, target, |edges| - 1, Redirect(edges[|edges| - 1], gone, target))
  {
    var init := edges[..|edges| - 1];
    RelinkMembers(init, gone, target);
    forall k | 0 <= k < |edges| - 1 ensures Redirect(edges[|edges| - 1], gone, target) != if edges[k] in gone then target else edges[k] {
      assert init[k] in init;
    }
  }

  // ---------------------------------------------------------------- one operation

  /**
   Adding.  It succeeds exactly when every edge is to a live node and an explicit id is free; the error names
   the first edge that is not, or else the taken id.  The new node has the explicit id or "n" and the next
   number; only automatic ids use a number up, and only a key given is registered.
   */
  lemma AddIs<K>(g: Graph<K>, content: Content, edges: seq<NodeId>, id: Option<NodeId>, key: Option<K>)
    ensures var r, live := AddNode(g, content, edges, id, key), forall i | 0 <= i < |edges| :: edges[i] in g.nodes;
      && (r.Success? <==> live && (id.Some? ==> id.value !in g.nodes))
      && (r.Failure? && live ==> r.error == DuplicateId(id.value))
      && (!live ==> exists i | 0 <= i < |edges| :: edges[i] !in g.nodes && (forall j | 0 <= j < i :: edges[j] in g.nodes)
                                                   && r == Failure(NodeNotFound(edges[i])))
      && (r.Success? ==>
           var (g', node) := r.value;
           && node == Node(if id.Some? then id.value else "n" + Digits(g.nextAuto), content, edges, g.nextOrder)
           && g'.nodes == g.nodes[node.id := node] && g'.nextOrder == g.nextOrder + 1
           && g'.nextAuto == (if id.None? then g.nextAuto + 1 else g.nextAuto)
           && g'.index == (if key.Some? then g.index[key.value := node.id] else g.index))
  {
    if !(forall i | 0 <= i < |edges| :: edges[i] in g.nodes) { var i := FirstMissingIs(g, edges); }
  }

  lemma {:induction false} FirstMissingIs<K>(g: Graph<K>, ids: seq<NodeId>) returns (i: nat)
    requires exists k | 0 <= k < |ids| :: ids[k] !in g.nodes
    ensures i < |ids| && ids[i] !in g.nodes && (forall j | 0 <= j < i :: ids[j] in g.nodes)
    ensures FirstMissing(g, ids) == Some(ids[i])
    decreases |ids|
  {
    if ids[0] !in g.nodes {
      i := 0;
    } else {
      var k :| 0 <= k < |ids| && ids[k] !in g.nodes;
      assert ids[1..][k - 1] == ids[k];
      var n := FirstMissingIs(g, ids[1..]);
      i := n + 1;
      forall j | 0 <= j < i ensures ids[j] in g.nodes {
        if j > 0 { assert ids[1..][j - 1] == ids[j]; }
      }
    }
  }

  /**
   Linking.  It succeeds exactly when both nodes are live.  Then `dependsOn` is among the edges of `id`: they
   are as they were if it already was, and otherwise it is added behind them; nothing else changes.
   */
  lemma LinkIs<K>(g: Graph<K>, id: NodeId, dependsOn: NodeId)
    ensures var r := Link(g, id, dependsOn);
      && (r.Success? <==> id in g.nodes && dependsOn in g.nodes)
      && (r.Failure? ==> r.error == NodeNotFound(if id !in g.nodes then id else dependsOn))
      && (r.Success? ==>
           var g' := r.value;
           && g'.nextOrder == g.nextOrder && g'.nextAuto == g.nextAuto && g'.index == g.index
           && g'.nodes.Keys == g.nodes.Keys && (forall x | x in g.nodes && x != id :: g'.nodes[x] == g.nodes[x])
           && g'.nodes[id] == g.nodes[id].(edges := g'.nodes[id].edges)
           && g.nodes[id].edges <= g'.nodes[id].edges && dependsOn in g'.nodes[id].edges
           && (|g'.nodes[id].edges| == |g.nodes[id].edges| <==> dependsOn in g.nodes[id].edges)
           && |g'.nodes[id].edges| <= |g.nodes[id].edges| + 1)
  {
    var r := Link(g, id, dependsOn);
    if r.Success? && dependsOn !in g.nodes[id].edges {
      assert r.value.nodes[id].edges[|g.nodes[id].edges|] == dependsOn;
    }
  }

  /** Removing takes the one node away, whoever points at it; nothing else changes. */
  lemma RemoveIs<K>(g: Graph<K>, id: NodeId)
    ensures var g' := Remove(g, id);
      && g'.nodes.Keys == g.nodes.Keys - {id} && (forall x | x in g'.nodes :: g'.nodes[x] == g.nodes[x])
      && g'.nextOrder == g.nextOrder && g'.nextAuto == g.nextAuto && g'.index == g.index
  {
  }

  lemma AddKeeps<K>(g: Graph<K>, content: Content, edges: seq<NodeId>, id: Option<NodeId>, key: Option<K>)
    requires Valid(g) && AddNode(g, content, edges, id, key).Success?
    ensures var r := AddNode(g, content, edges, id, key).value;
      && Valid(r.0)
      && r.1 == Node(if id.Some? then id.value else AutoId(g.nextAuto), content, edges, g.nextOrder)
      && r.0.nodes == g.nodes[r.1.id := r.1]
      && (Closed(g) ==> Closed(r.0))
  {
  }

  /** Handing out automatic ids stays safe exactly when no explicit id is one still to be handed out. */
  lemma AddKeepsAutoFresh<K>(g: Graph<K>, content: Content, edges: seq<NodeId>, id: Option<NodeId>, key: Option<K>)
    requires AutoFresh(g) && AddNode(g, content, edges, id, key).Success?
    ensures AutoFresh(AddNode(g, content, edges, id, key).value.0) <==>
      (id.Some? ==> forall k | k >= g.nextAuto :: id.value != AutoId(k))
  {
    var r := AddNode(g, content, edges, id, key).value;
    if id.None? {
      forall k | k >= g.nextAuto + 1 ensures AutoId(k) !in r.0.nodes {
        if AutoId(k) == AutoId(g.nextAuto) { AutoIdInjective(k, g.nextAuto); }
      }
    } else if k :| k >= g.nextAuto && id.value == AutoId(k) {
      assert AutoId(k) in r.0.nodes;
    }
  }

  /** An automatic add makes the graph one larger exactly when its id is free; otherwise it overwrites a node. */
  lemma AddSize<K>(g: Graph<K>, content: Content, edges: seq<NodeId>, key: Option<K>)
    requires AddNode(g, content, edges, None, key).Success?
    ensures var g' := AddNode(g, content, edges, None, key).value.0;
      |g'.nodes| == (if AutoId(g.nextAuto) in g.nodes then |g.nodes| else |g.nodes| + 1)
  {
    var g' := AddNode(g, content, edges, None, key).value.0;
    assert g'.nodes.Keys == g.nodes.Keys + {AutoId(g.nextAuto)};
  }

  /** The overwrite happens: a first node named "n1" is lost to the first automatic add. */
  lemma AutoIdClash(a: Content, b: Content)
    ensures var g := AddNode<string>(Empty(), a, [], Some("n1"), None).value.0;
      && |g.nodes| == 1 && g.nodes["n1"].content == a
      && var g' := AddNode(g, b, [], None, None).value.0;
         |g'.nodes| == 1 && g'.nodes["n1"].content == b
  {
    var g := AddNode<string>(Empty(), a, [], Some("n1"), None).value.0;
    assert AutoId(1) == "n1";
    assert g.nodes.Keys == {"n1"};
    AddSize(g, b, [], None);
  }

  ghost predicate CollapseSucceeds<K>(g: Graph<K>, ids: seq<NodeId>) {
    forall i | 0 <= i < |ids| :: ids[i] in g.nodes
  }

  /** The incoming-edge quotient: what a collapse does to nodes and to edges, when the new id is free. */
  lemma CollapseIsQuotient<K>(g: Graph<K>, ids: seq<NodeId>, content: Content)
    requires Valid(g) && Closed(g) && AutoFresh(g)
    ensures Collapse(g, ids, content).Success? <==> CollapseSucceeds(g, ids)
    ensures CollapseSucceeds(g, ids) ==>
      var (g', fold) := Collapse(g, ids, content).value;
      && fold == Node(AutoId(g.nextAuto), content, [], g.nextOrder)
      && g'.nodes.Keys == (g.nodes.Keys - (set id | id in ids)) + {fold.id}
      && g'.nodes[fold.id] == fold
      && g'.nextOrder == g.nextOrder + 1 && g'.nextAuto == g.nextAuto + 1 && g'.index == g.index
      && (forall s | s in g.nodes && s !in ids :: QuotientAt(g, g', ids, fold.id, s))
  {
    if CollapseSucceeds(g, ids) {
      var (g', fold) := Collapse(g, ids, content).value;
      assert fold.id !in g.nodes;
      var gone := set id | id in ids;
      forall s | s in g.nodes && s !in ids ensures QuotientAt(g, g', ids, fold.id, s) {
        RelinkMembers(g.nodes[s].edges, gone, fold.id);
        RelinkOrder(g.nodes[s].edges, gone, fold.id);
        assert fold.id !in g.nodes[s].edges;
      }
    }
  }

  /** At a survivor: edges to survivors kept, an edge to the fold iff one to a folded node, none repeated. */
  ghost predicate QuotientAt<K>(g: Graph<K>, g': Graph<K>, ids: seq<NodeId>, fold: NodeId, s: NodeId)
    requires s in g.nodes
  {
    && s in g'.nodes
    && g'.nodes[s] == g.nodes[s].(edges := g'.nodes[s].edges)
    && NoRepeats(g'.nodes[s].edges)
    && (forall t | t in g'.nodes[s].edges :: t == fold || (t in g.nodes[s].edges && t !in ids))
    && (forall t | t in g.nodes[s].edges && t !in ids :: t in g'.nodes[s].edges)
    && (fold in g'.nodes[s].edges <==> exists t :: t in g.nodes[s].edges && t in ids)
    && InOrder(g.nodes[s].edges, (set id | id in ids), fold, g'.nodes[s].edges)
  }

  lemma CollapseKeeps<K>(g: Graph<K>, ids: seq<NodeId>, content: Content)
    requires Valid(g) && Closed(g) && AutoFresh(g) && CollapseSucceeds(g, ids)
    ensures var g' := Collapse(g, ids, content).value.0; Valid(g') && Closed(g') && AutoFresh(g')
  {
    CollapseIsQuotient(g, ids, content);
    var (g', fold) := Collapse(g, ids, content).value;
    forall k | k >= g'.nextAuto ensures AutoId(k) !in g'.nodes {
      if AutoId(k) == AutoId(g.nextAuto) { AutoIdInjective(k, g.nextAuto); }
    }
    forall s, i | s in g'.nodes && 0 <= i < |g'.nodes[s].edges| ensures g'.nodes[s].edges[i] in g'.nodes {
      if s != fold.id {
        assert QuotientAt(g, g', ids, fold.id, s);
        var t := g'.nodes[s].edges[i];
        assert t in g'.nodes[s].edges;
        if t != fold.id { assert t in g.nodes[s].edges; }
      }
    }
  }

  /** The folded node is in the result exactly when its automatic id was not among the ids folded away. */
  lemma CollapseKeepsFold<K>(g: Graph<K>, ids: seq<NodeId>, content: Content)
    requires Valid(g) && CollapseSucceeds(g, ids)
    ensures var (g', fold) := Collapse(g, ids, content).value; fold.id in g'.nodes <==> AutoId(g.nextAuto) !in ids
  {
  }

  /** And it can be missing: folding the explicitly named "n1" first thing leaves an empty graph. */
  lemma CollapseLosesFold(a: Content, b: Content)
    ensures var g := AddNode<string>(Empty(), a, [], Some("n1"), None).value.0;
      CollapseSucceeds(g, ["n1"]) && Collapse(g, ["n1"], b).value.0.nodes == map[]
  {
    var g := AddNode<string>(Empty(), a, [], Some("n1"), None).value.0;
    assert AutoId(1) == "n1";
    assert g.nodes.Keys == {"n1"};
    assert Collapse(g, ["n1"], b).value.0.nodes.Keys == {};
  }

  // ---------------------------------------------------------------- every run

  datatype Op<K> =
    | Add(content: Content, edges: seq<NodeId>, id: Option<NodeId>, key: Option<K>)
    | Join(source: NodeId, dependsOn: NodeId)
    | Fold(ids: seq<NodeId>, content: Content)
    | Compact(n: int, summarize: seq<Node> -> string, kind: string)

  /** A call that raises leaves the graph as it was. */
  function Apply<K>(g: Graph<K>, op: Op<K>): Graph<K>
    requires Valid(g)
  {
    match op
    case Add(content, edges, id, key) =>
      var r := AddNode(g, content, edges, id, key);
      if r.Success? then r.value.0 else g
    case Join(source, dependsOn) =>
      var r := Link(g, source, dependsOn);
      if r.Success? then r.value else g
    case Fold(ids, content) =>
      var r := Collapse(g, ids, content);
      if r.Success? then r.value.0 else g
    case Compact(n, summarize, kind) =>
      var r := CompactOldest(g, n, summarize, kind);
      if r.Success? then r.value.0 else g
  }

  /** An explicit id must not be one that automatic numbering still has to hand out. */
  ghost predicate Safe<K>(g: Graph<K>, op: Op<K>) {
    op.Add? && op.id.Some? ==> forall k | k >= g.nextAuto :: op.id.value != AutoId(k)
  }

  ghost predicate Sound<K>(g: Graph<K>) {
    Valid(g) && Closed(g) && AutoFresh(g)
  }

  function BatchContent<K>(g: Graph<K>, n: nat, summarize: seq<Node> -> string, kind: string): Content
    requires Valid(g) && n <= |g.nodes|
  {
    Content(kind, summarize(Oldest(g, n)), Null, map[])
  }

  /** Compaction is the collapse of n distinct live ids. */
  lemma CompactFolds<K>(g: Graph<K>, n: int, summarize: seq<Node> -> string, kind: string)
    requires Valid(g) && 0 < n < |g.nodes|
    ensures var ids := Ids(Oldest(g, n));
      && |ids| == n
      && CollapseSucceeds(g, ids)
      && NoRepeats(ids)
      && var folded := Collapse(g, ids, BatchContent(g, n, summarize, kind)).value;
         CompactOldest(g, n, summarize, kind) == Success((folded.0, Some(folded.1)))
  {
    ByAgeLists(g, g.nodes.Keys);
    var ids := Ids(Oldest(g, n));
    forall i, j | 0 <= i < j < |ids| ensures ids[i] != ids[j] {
      assert AllNodes(g)[i].order < AllNodes(g)[j].order;
    }
  }

  lemma AddStaysSound<K>(g: Graph<K>, content: Content, edges: seq<NodeId>, id: Option<NodeId>, key: Option<K>)
    requires Sound(g) && (id.Some? ==> forall k | k >= g.nextAuto :: id.value != AutoId(k))
    requires AddNode(g, content, edges, id, key).Success?
    ensures Sound(AddNode(g, content, edges, id, key).value.0)
  {
    AddKeeps(g, content, edges, id, key);
    AddKeepsAutoFresh(g, content, edges, id, key);
  }

  lemma LinkStaysSound<K>(g: Graph<K>, source: NodeId, dependsOn: NodeId)
    requires Sound(g) && Link(g, source, dependsOn).Success?
    ensures Sound(Link(g, source, dependsOn).value)
  {
    var g' := Link(g, source, dependsOn).value;
    assert g'.nodes.Keys == g.nodes.Keys;
    forall id, i | id in g'.nodes && 0 <= i < |g'.nodes[id].edges| ensures g'.nodes[id].edges[i] in g'.nodes {
      if id == source && i == |g.nodes[id].edges| {} else { assert g'.nodes[id].edges[i] == g.nodes[id].edges[i]; }
    }
  }

  lemma CompactStaysSound<K>(g: Graph<K>, n: int, summarize: seq<Node> -> string, kind: string)
    requires Sound(g) && 0 < n < |g.nodes|
    ensures Sound(Apply(g, Compact(n, summarize, kind)))
  {
    CompactFolds(g, n, summarize, kind);
    CollapseKeeps(g, Ids(Oldest(g, n)), BatchContent(g, n, summarize, kind));
  }

  lemma ApplyKeeps<K>(g: Graph<K>, op: Op<K>)
    requires Sound(g) && Safe(g, op)
    ensures Sound(Apply(g, op))
  {
    match op
    case Add(content, edges, id, key) =>
      if AddNode(g, content, edges, id, key).Success? { AddStaysSound(g, content, edges, id, key); }
    case Join(source, dependsOn) =>
      if Link(g, source, dependsOn).Success? { LinkStaysSound(g, source, dependsOn); }
    case Fold(ids, content) =>
      CollapseIsQuotient(g, ids, content);
      if CollapseSucceeds(g, ids) { CollapseKeeps(g, ids, content); }
    case Compact(n, summarize, kind) =>
      if 0 < n < |g.nodes| { CompactStaysSound(g, n, summarize, kind); }
  }

  /** `run` is the graph's history: it starts empty and each step applies one safe operation. */
  ghost predicate IsRun<K(!new)>(run: seq<Graph<K>>, ops: seq<Op<K>>) {
    && |run| == |ops| + 1
    && run[0] == Empty()
    && forall i | 0 <= i < |ops| :: Valid(run[i]) ==> Safe(run[i], ops[i]) && run[i + 1] == Apply(run[i], ops[i])
  }

  /** In every state of every run: no edge dangles, ids and ages are consistent, fresh ids are free. */
  lemma {:induction false} RunsStaySound<K(!new)>(run: seq<Graph<K>>, ops: seq<Op<K>>, i: nat)
    requires IsRun(run, ops) && i < |run|
    ensures Sound(run[i])
    decreases i
  {
    if i > 0 {
      RunsStaySound(run, ops, i - 1);
      ApplyKeeps(run[i - 1], ops[i - 1]);
    }
  }

  // ---------------------------------------------------------------- acyclicity

  /** A rank below `bound` for every node, falling along every edge. */
  ghost predicate Ranked<K>(g: Graph<K>, rank: map<NodeId, nat>, bound: nat) {
    && rank.Keys == g.nodes.Keys
    && (forall id | id in rank :: rank[id] < bound)
    && (forall id, t | id in g.nodes && t in g.nodes[id].edges && t in rank :: rank[t] < rank[id])
  }

  ghost predicate IsPath<K>(g: Graph<K>, p: seq<NodeId>) {
    && |p| > 0
    && (forall i | 0 <= i < |p| :: p[i] in g.nodes)
    && (forall i | 0 < i < |p| :: p[i] in g.nodes[p[i - 1]].edges)
  }

  lemma {:induction false} RankFalls<K>(g: Graph<K>, rank: map<NodeId, nat>, bound: nat, p: seq<NodeId>)
    requires Ranked(g, rank, bound) && IsPath(g, p) && |p| > 1
    ensures rank[p[|p| - 1]] < rank[p[0]]
    decreases |p|
  {
    if |p| > 2 {
      var q := p[..|p| - 1];
      RankFalls(g, rank, bound, q);
      assert p[|p| - 1] in g.nodes[p[|p| - 2]].edges;
    } else {
      assert p[1] in g.nodes[p[0]].edges;
    }
  }

  lemma CollapseKeepsRank<K>(g: Graph<K>, ids: seq<NodeId>, content: Content, rank: map<NodeId, nat>, bound: nat)
    returns (rank': map<NodeId, nat>)
    requires Sound(g) && CollapseSucceeds(g, ids) && Ranked(g, rank, bound)
    ensures Ranked(Collapse(g, ids, content).value.0, rank', bound + 1)
  {
    hide Collapse, Valid, AutoFresh;
    CollapseIsQuotient(g, ids, content);
    var (g', fold) := Collapse(g, ids, content).value;
    rank' := map id | id in g'.nodes :: if id == fold.id then 0 else rank[id] + 1;
    forall id, t | id in g'.nodes && t in g'.nodes[id].edges && t in rank' ensures rank'[t] < rank'[id] {
      assert id != fold.id;
      assert QuotientAt(g, g', ids, fold.id, id);
    }
  }

  lemma AddKeepsRank<K>(g: Graph<K>, node: Node, g': Graph<K>, rank: map<NodeId, nat>, bound: nat)
    requires Closed(g) && Ranked(g, rank, bound)
    requires node.id !in g.nodes && g'.nodes == g.nodes[node.id := node]
    requires forall i | 0 <= i < |node.edges| :: node.edges[i] in g.nodes
    ensures Ranked(g', rank[node.id := bound], bound + 1)
  {
    var rank' := rank[node.id := bound];
    forall id, t | id in g'.nodes && t in g'.nodes[id].edges && t in rank' ensures rank'[t] < rank'[id] {
      assert t in g.nodes;
    }
  }

  lemma ApplyKeepsRank<K>(g: Graph<K>, op: Op<K>, rank: map<NodeId, nat>, bound: nat)
    returns (rank': map<NodeId, nat>, bound': nat)
    requires Sound(g) && Safe(g, op) && !op.Join? && Ranked(g, rank, bound)
    ensures Ranked(Apply(g, op), rank', bound')
  {
    rank', bound' := rank, bound;
    match op
    case Add(content, edges, id, key) =>
      var r := AddNode(g, content, edges, id, key);
      if r.Success? {
        AddKeeps(g, content, edges, id, key);
        AddKeepsRank(g, r.value.1, r.value.0, rank, bound);
        rank', bound' := rank[r.value.1.id := bound], bound + 1;
      }
    case Fold(ids, content) =>
      CollapseIsQuotient(g, ids, content);
      if CollapseSucceeds(g, ids) {
        rank' := CollapseKeepsRank(g, ids, content, rank, bound);
        bound' := bound + 1;
      }
    case Compact(n, summarize, kind) =>
      if 0 < n < |g.nodes| {
        CompactFolds(g, n, summarize, kind);
        rank' := CollapseKeepsRank(g, Ids(Oldest(g, n)), BatchContent(g, n, summarize, kind), rank, bound);
        bound' := bound + 1;
      }
  }

  lemma {:induction false} RunRank<K(!new)>(run: seq<Graph<K>>, ops: seq<Op<K>>, i: nat)
    returns (rank: map<NodeId, nat>, bound: nat)
    requires IsRun(run, ops) && i < |run| && forall k | 0 <= k < i :: !ops[k].Join?
    ensures Ranked(run[i], rank, bound)
    decreases i
  {
    if i == 0 {
      rank, bound := map[], 0;
    } else {
      rank, bound := RunRank(run, ops, i - 1);
      RunsStaySound(run, ops, i - 1);
      rank, bound := ApplyKeepsRank(run[i - 1], ops[i - 1], rank, bound);
    }
  }

  /** Without link, no state of any run has a cycle of edges. */
  lemma RunsAcyclic<K(!new)>(run: seq<Graph<K>>, ops: seq<Op<K>>, i: nat, p: seq<NodeId>)
    requires IsRun(run, ops) && i < |run| && forall k | 0 <= k < i :: !ops[k].Join?
    requires IsPath(run[i], p) && |p| > 1
    ensures p[0] != p[|p| - 1]
  {
    var rank, bound := RunRank(run, ops, i);
    RankFalls(run[i], rank, bound, p);
  }

  // ---------------------------------------------------------------- locality of an add

  /** A node whose edges avoid everything within h - 1 hops of u changes nothing within h hops of u. */
  lemma AddIsLocal<K>(g: Graph<K>, content: Content, edges: seq<NodeId>, key: Option<K>, u: NodeId, h: nat)
    requires Sound(g) && u in g.nodes && AddNode(g, content, edges, None, key).Success?
    requires h > 0 ==> forall e | e in edges :: e !in Ball(g, u, h - 1)
    ensures var g' := AddNode(g, content, edges, None, key).value.0;
      && Ball(g', u, h) == Ball(g, u, h)
      && forall v | v in Ball(g, u, h) :: g'.nodes[v] == g.nodes[v]
  {
    var (g', node) := AddNode(g, content, edges, None, key).value;
    AddKeeps(g, content, edges, None, key);
    forall v | v in g.nodes ensures node.id !in g.nodes[v].edges {
      if i :| 0 <= i < |g.nodes[v].edges| && g.nodes[v].edges[i] == node.id { assert false; }
    }
    BallIsLocal(g, g', node, u, h);
  }

  // ---------------------------------------------------------------- a long run settles

  lemma {:induction false} SetOfDistinct(ids: seq<NodeId>)
    requires NoRepeats(ids)
    ensures |set id | id in ids| == |ids|
    decreases |ids|
  {
    if ids == [] {
      assert (set id | id in ids) == {};
    } else {
      var init, last := ids[..|ids| - 1], ids[|ids| - 1];
      SetOfDistinct(init);
      assert ids == init + [last];
      assert (set id | id in ids) == (set id | id in init) + {last};
    }
  }

  lemma CollapseKeys<K>(g: Graph<K>, ids: seq<NodeId>, content: Content)
    requires Sound(g) && CollapseSucceeds(g, ids)
    ensures var (g', fold) := Collapse(g, ids, content).value;
      && fold.id !in g.nodes
      && g'.nodes.Keys == (g.nodes.Keys - (set id | id in ids)) + {fold.id}
  {
    CollapseIsQuotient(g, ids, content);
  }

  lemma ReplaceSize(keys: set<NodeId>, gone: set<NodeId>, fold: NodeId)
    requires gone <= keys && fold !in keys
    ensures |(keys - gone) + {fold}| == |keys| - |gone| + 1
  {
    assert keys == gone + (keys - gone);
  }

  lemma CollapseSize<K>(g: Graph<K>, ids: seq<NodeId>, content: Content)
    requires Sound(g) && CollapseSucceeds(g, ids) && NoRepeats(ids)
    ensures |Collapse(g, ids, content).value.0.nodes| == |g.nodes| - |ids| + 1
  {
    CollapseKeys(g, ids, content);
    SetOfDistinct(ids);
    var (g', fold) := Collapse(g, ids, content).value;
    ReplaceSize(g.nodes.Keys, (set id | id in ids), fold.id);
    assert |g'.nodes| == |g'.nodes.Keys|;
  }

  /** Which live node stands for each node ever added. */
  type Standing = map<NodeId, NodeId>

  function Restand(standing: Standing, ids: seq<NodeId>, fold: NodeId): Standing {
    map x | x in standing :: if standing[x] in ids then fold else standing[x]
  }

  function RestandAfter<K>(standing: Standing, oldest: seq<Node>, r: Result<(Graph<K>, Option<Node>), GraphError>): Standing {
    if r.Success? && r.value.1.Some? then Restand(standing, Ids(oldest), r.value.1.value.id) else standing
  }

  /** The caller's loop body: add one node and, past the threshold, fold the n oldest into one. */
  function Cycle<K>(g: Graph<K>, standing: Standing, content: Content, threshold: nat, n: int,
                    summarize: seq<Node> -> string, kind: string): (Graph<K>, Standing)
    requires Valid(g)
  {
    var (g1, node) := AddNode(g, content, [], None, None).value;
    var standing1 := standing[node.id := node.id];
    AddKeeps(g, content, [], None, None);
    if |g1.nodes| > threshold && 0 < n < |g1.nodes| then
      (Apply(g1, Compact(n, summarize, kind)),
       RestandAfter(standing1, Oldest(g1, n), CompactOldest(g1, n, summarize, kind)))
    else (g1, standing1)
  }

  /** Every node ever added is stood for by one live node, and every live node stands for some. */
  ghost predicate Stands<K>(g: Graph<K>, standing: Standing) {
    && (forall x | x in standing :: standing[x] in g.nodes)
    && (forall id | id in g.nodes :: exists x :: x in standing && standing[x] == id)
    && (forall k | k >= g.nextAuto :: AutoId(k) !in standing)
  }

  lemma RestandKeeps<K>(g: Graph<K>, standing: Standing, ids: seq<NodeId>, content: Content)
    requires Sound(g) && Stands(g, standing) && CollapseSucceeds(g, ids) && ids != []
    ensures var (g', fold) := Collapse(g, ids, content).value;
      Stands(g', Restand(standing, ids, fold.id))
  {
    CollapseKeys(g, ids, content);
    var (g', fold) := Collapse(g, ids, content).value;
    var standing' := Restand(standing, ids, fold.id);
    assert ids[0] in g.nodes;
    var x :| x in standing && standing[x] == ids[0];
    assert standing'[x] == fold.id;
    forall id | id in g'.nodes ensures exists y :: y in standing' && standing'[y] == id {
      if id != fold.id {
        var y :| y in standing && standing[y] == id;
        assert standing'[y] == id;
      }
    }
  }

  lemma AddStands<K>(g: Graph<K>, standing: Standing, content: Content)
    requires Sound(g) && Stands(g, standing)
    ensures var (g', node) := AddNode(g, content, [], None, None).value;
      && Sound(g') && Stands(g', standing[node.id := node.id])
      && |standing[node.id := node.id]| == |standing| + 1
      && |g'.nodes| == |g.nodes| + 1
  {
    AddKeeps(g, content, [], None, None);
    AddKeepsAutoFresh(g, content, [], None, None);
    AddSize(g, content, [], None);
    var (g', node) := AddNode(g, content, [], None, None).value;
    var standing' := standing[node.id := node.id];
    forall id | id in g'.nodes ensures exists y :: y in standing' && standing'[y] == id {
      if id != node.id {
        var y :| y in standing && standing[y] == id;
        assert standing'[y] == id;
      } else {
        assert standing'[node.id] == id;
      }
    }
    forall k | k >= g'.nextAuto ensures AutoId(k) !in standing' {
      if AutoId(k) == AutoId(g.nextAuto) { AutoIdInjective(k, g.nextAuto); }
    }
  }

  lemma CompactSize<K>(g: Graph<K>, n: int, summarize: seq<Node> -> string, kind: string)
    requires Sound(g) && 0 < n < |g.nodes|
    ensures |Apply(g, Compact(n, summarize, kind)).nodes| == |g.nodes| - n + 1
  {
    CompactFolds(g, n, summarize, kind);
    CollapseSize(g, Ids(Oldest(g, n)), BatchContent(g, n, summarize, kind));
  }

  lemma RestandSize(standing: Standing, ids: seq<NodeId>, fold: NodeId)
    ensures |Restand(standing, ids, fold)| == |standing|
  {
    assert Restand(standing, ids, fold).Keys == standing.Keys;
  }

  lemma CompactStands<K>(g: Graph<K>, standing: Standing, n: int, summarize: seq<Node> -> string, kind: string)
    requires Sound(g) && Stands(g, standing) && 0 < n < |g.nodes|
    ensures var standing' := RestandAfter(standing, Oldest(g, n), CompactOldest(g, n, summarize, kind));
      Stands(Apply(g, Compact(n, summarize, kind)), standing') && |standing'| == |standing|
  {
    CompactFolds(g, n, summarize, kind);
    var ids, content := Ids(Oldest(g, n)), BatchContent(g, n, summarize, kind);
    var (g', fold) := Collapse(g, ids, content).value;
    RestandSize(standing, ids, fold.id);
    var standing' := RestandAfter(standing, Oldest(g, n), CompactOldest(g, n, summarize, kind));
    assert standing' == Restand(standing, ids, fold.id);
    assert Apply(g, Compact(n, summarize, kind)) == g';
    assert Stands(g', standing') by { RestandKeeps(g, standing, ids, content); }
  }

  /** How many nodes a cycle leaves of a graph that had `size`. */
  function SizeNext(size: nat, threshold: nat, n: int): nat {
    if size + 1 > threshold && 0 < n <= size then size + 2 - n else size + 1
  }

  /** How many nodes there are after i cycles. */
  function SizeAfter(threshold: nat, n: int, i: nat): nat {
    if i == 0 then 0 else SizeNext(SizeAfter(threshold, n, i - 1), threshold, n)
  }

  lemma CompactKeeps<K>(g: Graph<K>, standing: Standing, n: int, summarize: seq<Node> -> string, kind: string)
    requires Sound(g) && Stands(g, standing) && 0 < n < |g.nodes|
    ensures var standing' := RestandAfter(standing, Oldest(g, n), CompactOldest(g, n, summarize, kind));
      var g' := Apply(g, Compact(n, summarize, kind));
      Sound(g') && Stands(g', standing') && |standing'| == |standing| && |g'.nodes| == |g.nodes| - n + 1
  {
    hide Stands, RestandAfter, Apply;
    ApplyKeeps(g, Compact(n, summarize, kind));
    CompactSize(g, n, summarize, kind);
    CompactStands(g, standing, n, summarize, kind);
  }

  /** One cycle, whatever the threshold and the batch: the graph stays sound and stands for one node more. */
  lemma CycleKeeps<K>(g: Graph<K>, standing: Standing, content: Content, threshold: nat, n: int,
                      summarize: seq<Node> -> string, kind: string)
    requires Sound(g) && Stands(g, standing)
    ensures var (g', standing') := Cycle(g, standing, content, threshold, n, summarize, kind);
      Sound(g') && Stands(g', standing') && |standing'| == |standing| + 1 && |g'.nodes| == SizeNext(|g.nodes|, threshold, n)
  {
    hide Stands, RestandAfter, Apply;
    AddStands(g, standing, content);
    var (g1, node) := AddNode(g, content, [], None, None).value;
    if |g1.nodes| > threshold && 0 < n < |g1.nodes| {
      CompactKeeps(g1, standing[node.id := node.id], n, summarize, kind);
    }
  }

  ghost predicate IsLongRun<K(!new)>(run: seq<(Graph<K>, Standing)>, contents: seq<Content>, threshold: nat, n: int,
                                     summarize: seq<Node> -> string, kind: string) {
    && |run| == |contents| + 1
    && run[0] == (Empty(), map[])
    && forall i | 0 <= i < |contents| ::
         Valid(run[i].0) ==> run[i + 1] == Cycle(run[i].0, run[i].1, contents[i], threshold, n, summarize, kind)
  }

  /** Sound, standing for `added` nodes. */
  ghost predicate Represents<K>(state: (Graph<K>, Standing), added: nat) {
    Sound(state.0) && Stands(state.0, state.1) && |state.1| == added
  }

  /**
   After any number of cycles every node ever added is stood for by one live node, and the graph has
   exactly the size counted by `SizeAfter`.
   */
  lemma {:induction false} LongRunCounts<K(!new)>(run: seq<(Graph<K>, Standing)>, contents: seq<Content>,
      threshold: nat, n: int, summarize: seq<Node> -> string, kind: string, i: nat)
    requires IsLongRun(run, contents, threshold, n, summarize, kind) && i < |run|
    ensures Represents(run[i], i) && |run[i].0.nodes| == SizeAfter(threshold, n, i)
    decreases i
  {
    hide Cycle, Stands;
    if i == 0 {
      NothingRepresented<K>();
    } else {
      LongRunCounts(run, contents, threshold, n, summarize, kind, i - 1);
      CycleKeeps(run[i - 1].0, run[i - 1].1, contents[i - 1], threshold, n, summarize, kind);
    }
  }

  lemma NothingRepresented<K>()
    ensures Represents<K>((Empty(), map[]), 0)
  {
  }

  /** Batches of two or more: the size stays within the larger of threshold and batch. */
  lemma {:induction false} BatchesBound(threshold: nat, n: int, i: nat)
    requires n >= 2
    ensures SizeAfter(threshold, n, i) <= if n <= threshold then threshold else n
    decreases i
  {
    if i > 0 { BatchesBound(threshold, n, i - 1); }
  }

  /** Batches of one or none free nothing: the graph grows by one each cycle, without limit. */
  lemma {:induction false} SmallBatchesGrow(threshold: nat, n: int, i: nat)
    requires n <= 1
    ensures SizeAfter(threshold, n, i) == i
    decreases i
  {
    if i > 0 { SmallBatchesGrow(threshold, n, i - 1); }
  }

  /** A batch larger than the threshold waits until the graph is larger than the batch. */
  lemma {:induction false} LargeBatchesWait(threshold: nat, n: int, i: nat)
    requires n >= i
    ensures SizeAfter(threshold, n, i) == i
    decreases i
  {
    if i > 0 { LargeBatchesWait(threshold, n, i - 1); }
  }

  /** No state of any run of cycles has more than `bound` nodes. */
  ghost predicate Bounded<K(!new)>(threshold: nat, n: int, summarize: seq<Node> -> string, kind: string, bound: nat) {
    forall run: seq<(Graph<K>, Standing)>, contents, i |
      IsLongRun(run, contents, threshold, n, summarize, kind) && 0 <= i < |run| :: |run[i].0.nodes| <= bound
  }

  /** There is a run of any length. */
  lemma {:induction false} SomeRun<K(!new)>(threshold: nat, n: int, summarize: seq<Node> -> string, kind: string,
      content: Content, length: nat)
    returns (run: seq<(Graph<K>, Standing)>, contents: seq<Content>)
    ensures IsLongRun(run, contents, threshold, n, summarize, kind) && |contents| == length
    decreases length
  {
    hide Cycle, Stands;
    if length == 0 {
      run, contents := [(Empty(), map[])], [];
    } else {
      var before, some := SomeRun<K>(threshold, n, summarize, kind, content, length - 1);
      LongRunCounts(before, some, threshold, n, summarize, kind, length - 1);
      var (g, standing) := before[length - 1];
      run, contents := before + [Cycle(g, standing, content, threshold, n, summarize, kind)], some + [content];
    }
  }

  lemma RunExceeds<K(!new)>(threshold: nat, n: int, summarize: seq<Node> -> string, kind: string, bound: nat, length: nat)
    requires SizeAfter(threshold, n, length) > bound
    ensures !Bounded<K>(threshold, n, summarize, kind, bound)
  {
    hide IsLongRun;
    var run, contents := SomeRun<K>(threshold, n, summarize, kind, Content("fact", "", Null, map[]), length);
    RunLength(run, contents, threshold, n, summarize, kind);
    LongRunCounts(run, contents, threshold, n, summarize, kind, length);
    assert |run[length].0.nodes| > bound;
  }

  lemma RunLength<K(!new)>(run: seq<(Graph<K>, Standing)>, contents: seq<Content>, threshold: nat, n: int,
                           summarize: seq<Node> -> string, kind: string)
    requires IsLongRun(run, contents, threshold, n, summarize, kind)
    ensures |run| == |contents| + 1
  {
  }

  /** Adding one node a cycle and compacting past the threshold keeps to it exactly when 2 <= n <= threshold. */
  lemma KeepsToThresholdIff<K(!new)>(threshold: nat, n: int, summarize: seq<Node> -> string, kind: string)
    ensures Bounded<K>(threshold, n, summarize, kind, threshold) <==> 2 <= n <= threshold
  {
    hide IsLongRun;
    if 2 <= n <= threshold {
      WithinBatches<K>(threshold, n, summarize, kind);
    } else {
      if n <= 1 { SmallBatchesGrow(threshold, n, threshold + 1); } else { LargeBatchesWait(threshold, n, threshold + 1); }
      RunExceeds<K>(threshold, n, summarize, kind, threshold, threshold + 1);
    }
  }

  lemma WithinBatches<K(!new)>(threshold: nat, n: int, summarize: seq<Node> -> string, kind: string)
    requires n >= 2
    ensures Bounded<K>(threshold, n, summarize, kind, if n <= threshold then threshold else n)
  {
    hide IsLongRun;
    forall run: seq<(Graph<K>, Standing)>, contents, i | IsLongRun(run, contents, threshold, n, summarize, kind) && 0 <= i < |run|
      ensures |run[i].0.nodes| <= if n <= threshold then threshold else n
    {
      LongRunCounts(run, contents, threshold, n, summarize, kind, i);
      BatchesBound(threshold, n, i);
    }
  }

  /** The size stays bounded at all exactly when batches have at least two nodes. */
  lemma BoundedIff<K(!new)>(threshold: nat, n: int, summarize: seq<Node> -> string, kind: string)
    ensures (exists bound :: Bounded<K>(threshold, n, summarize, kind, bound)) <==> n >= 2
  {
    hide Bounded;
    if n >= 2 {
      WithinBatches<K>(threshold, n, summarize, kind);
    } else {
      forall bound: nat ensures !Bounded<K>(threshold, n, summarize, kind, bound) {
        SmallBatchesGrow(threshold, n, bound + 1);
        RunExceeds<K>(threshold, n, summarize, kind, bound, bound + 1);
      }
    }
  }

  /** Between a cycle's add and its compaction there is at most one node more than the threshold. */
  lemma BetweenAddAndCompact<K(!new)>(run: seq<(Graph<K>, Standing)>, contents: seq<Content>,
      threshold: nat, n: int, summarize: seq<Node> -> string, kind: string, i: nat, content: Content)
    requires IsLongRun(run, contents, threshold, n, summarize, kind) && 2 <= n <= threshold && i < |run|
    ensures |AddNode(run[i].0, content, [], None, None).value.0.nodes| <= threshold + 1
  {
    hide Cycle, IsLongRun;
    LongRunCounts(run, contents, threshold, n, summarize, kind, i);
    BatchesBound(threshold, n, i);
    AddSize(run[i].0, content, [], None);
  }
}
