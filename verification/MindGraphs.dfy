/**
 The mutable context graph.  Fields are the source's dictionaries and counters; every method is
 proved against the functions of Graphs, and the breadth-first search against undirected distance.
 */
module MindGraphs {
  import opened Wrappers
  import opened Values
  import opened Graphs
  import opened Neighborhoods

  predicate Filed(reverse: map<NodeId, seq<NodeId>>, p: NodeId, id: NodeId) {
    p in reverse && id in reverse[p]
  }

  /** Who points at whom, from the edges of the nodes already visited. */
  ghost predicate Reverses(nodes: map<NodeId, Node>, visited: set<NodeId>, reverse: map<NodeId, seq<NodeId>>) {
    forall p, id :: Filed(reverse, p, id) <==> (id in visited && id in nodes && p in nodes[id].edges)
  }

  lemma NearAre<K>(g: Graph<K>, id: NodeId, reverse: map<NodeId, seq<NodeId>>)
    requires id in g.nodes && Reverses(g.nodes, g.nodes.Keys, reverse)
    ensures forall v | v in g.nodes :: v in g.nodes[id].edges || Filed(reverse, id, v) <==> v in Neighbors(g, id)
  {
  }

  /** The relinking loop of collapse, part way: the nodes in `work` are still as they were. */
  ghost predicate RelinkedSoFar(before: map<NodeId, Node>, now: map<NodeId, Node>, work: set<NodeId>,
                                gone: set<NodeId>, target: NodeId) {
    && now.Keys == before.Keys
    && forall id | id in before ::
         now[id] == if id in work then before[id] else RelinkNode(before[id], gone, target)
  }

  /** One more node searched from: what the frontier has reached so far. */
  lemma HopGrows<K>(g: Graph<K>, done: set<NodeId>, id: NodeId, seen: set<NodeId>, next: set<NodeId>)
    requires next == Around(g, done) - seen
    ensures Around(g, done + {id}) - seen == next + (Neighbors(g, id) - seen)
  {
  }

  /** After i hops: everything within i was seen, and all of it but the frontier was searched from. */
  ghost predicate Searched<K>(g: Graph<K>, start: NodeId, i: nat, seen: set<NodeId>, frontier: set<NodeId>) {
    seen == Ball(g, start, i) && frontier <= seen && Around(g, seen - frontier) <= seen
  }

  lemma SearchStarts<K>(g: Graph<K>, start: NodeId)
    requires start in g.nodes
    ensures Searched(g, start, 0, {start}, {start})
  {
    BallZero(g, start);
  }

  lemma HopReaches<K>(g: Graph<K>, start: NodeId, i: nat, seen: set<NodeId>, frontier: set<NodeId>, next: set<NodeId>)
    requires Searched(g, start, i, seen, frontier) && next == Around(g, frontier) - seen
    ensures Searched(g, start, i + 1, seen + next, next)
  {
    BallStep(g, start, i);
    assert seen == (seen - frontier) + frontier;
    assert Around(g, seen) == Around(g, seen - frontier) + Around(g, frontier);
    assert seen + next - next == seen;
  }

  /** An empty frontier means that further hops reach nothing more. */
  lemma SearchExhausted<K>(g: Graph<K>, start: NodeId, i: nat, seen: set<NodeId>, k: nat)
    requires Searched(g, start, i, seen, {}) && i <= k
    ensures Searched(g, start, k, seen, {})
  {
    assert seen - {} == seen;
    BallStops(g, start, i, k);
  }

  class MindGraph<K(==)> {
    var nodes: map<NodeId, Node>
    var nextOrder: nat
    var nextAuto: nat
    var index: map<K, NodeId>

    constructor ()
      ensures State() == Empty()
    {
      nodes, nextOrder, nextAuto, index := map[], 1, 1, map[];
    }

    function State(): Graph<K>
      reads this
    {
      Graph(nodes, nextOrder, nextAuto, index)
    }

    method AddNode(content: Content, edges: seq<NodeId>, id: Option<NodeId>, key: Option<K>)
      returns (r: Result<Node, GraphError>)
      modifies this
      ensures match Graphs.AddNode(old(State()), content, edges, id, key)
        case Success(added) => r == Success(added.1) && State() == added.0
        case Failure(e) => r == Failure(e) && State() == old(State())
    {
      var i := 0;
      while i < |edges|
        invariant 0 <= i <= |edges|
        invariant State() == old(State())
        invariant FirstMissing(State(), edges) == FirstMissing(State(), edges[i..])
      {
        if edges[i] !in nodes {
          return Failure(NodeNotFound(edges[i]));
        }
        assert edges[i..][1..] == edges[i + 1..];
        i := i + 1;
      }
      var nodeId: NodeId;
      if id.None? {
        nodeId := AutoId(nextAuto);
        nextAuto := nextAuto + 1;
      } else {
        if id.value in nodes { return Failure(DuplicateId(id.value)); }
        nodeId := id.value;
      }
      var node := Node(nodeId, content, edges, nextOrder);
      nextOrder := nextOrder + 1;
      nodes := nodes[nodeId := node];
      if key.Some? { index := index[key.value := nodeId]; }
      return Success(node);
    }

    method GetByKey(key: K) returns (r: Option<Node>)
      ensures r == Graphs.GetByKey(State(), key)
    {
      if key !in index || index[key] !in nodes { return None; }
      return Some(nodes[index[key]]);
    }

    method GetFull(id: NodeId) returns (r: Result<Value, GraphError>)
      ensures r == if id in nodes then Success(nodes[id].content.full) else Failure(NodeNotFound(id))
    {
      if id !in nodes { return Failure(NodeNotFound(id)); }
      return Success(nodes[id].content.full);
    }

    method Link(id: NodeId, dependsOn: NodeId) returns (r: Option<GraphError>)
      modifies this
      ensures match Graphs.Link(old(State()), id, dependsOn)
        case Success(g) => r.None? && State() == g
        case Failure(e) => r == Some(e) && State() == old(State())
    {
      if id !in nodes { return Some(NodeNotFound(id)); }
      if dependsOn !in nodes { return Some(NodeNotFound(dependsOn)); }
      if dependsOn !in nodes[id].edges {
        nodes := nodes[id := nodes[id].(edges := nodes[id].edges + [dependsOn])];
      }
      return None;
    }

    method Remove(id: NodeId)
      modifies this
      ensures State() == Graphs.Remove(old(State()), id)
    {
      nodes := nodes - {id};
    }

    /** The inner loop of collapse, over one node's edges: what they become, and whether that differs. */
    method RelinkEdges(edges: seq<NodeId>, gone: set<NodeId>, target: NodeId)
      returns (relinked: bool, remaining: seq<NodeId>)
      ensures remaining == Relink(edges, gone, target)
      ensures !relinked ==> remaining == edges
    {
      relinked, remaining := false, [];
      var seen: set<NodeId> := {};
      var i := 0;
      while i < |edges|
        invariant 0 <= i <= |edges|
        invariant remaining == Relink(edges[..i], gone, target)
        invariant forall t :: t in seen <==> t in remaining
        invariant !relinked ==> remaining == edges[..i]
      {
        assert edges[..i + 1][..i] == edges[..i];
        var t := Redirect(edges[i], gone, target);
        if t in seen {
          relinked := true;
        } else {
          seen := seen + {t};
          remaining := remaining + [t];
          if edges[i] in gone { relinked := true; }
        }
        i := i + 1;
      }
      assert edges[..i] == edges;
    }

    /** The id check at the head of collapse. */
    method CheckLive(ids: seq<NodeId>) returns (missing: Option<NodeId>)
      ensures missing == FirstMissing(State(), ids)
    {
      var i := 0;
      while i < |ids|
        invariant 0 <= i <= |ids|
        invariant FirstMissing(State(), ids) == FirstMissing(State(), ids[i..])
      {
        if ids[i] !in nodes { return Some(ids[i]); }
        assert ids[i..][1..] == ids[i + 1..];
        i := i + 1;
      }
      return None;
    }

    method RemoveAll(ids: seq<NodeId>)
      modifies this`nodes
      ensures nodes == map id | id in old(nodes) && id !in ids :: old(nodes)[id]
    {
      var i := 0;
      while i < |ids|
        invariant 0 <= i <= |ids|
        invariant nodes == map id | id in old(nodes) && id !in ids[..i] :: old(nodes)[id]
      {
        nodes := nodes - {ids[i]};
        assert ids[..i + 1] == ids[..i] + [ids[i]];
        i := i + 1;
      }
      assert ids[..i] == ids;
    }

    /** Every surviving node but the new one gets its edges redirected, in no particular order. */
    method RelinkAll(gone: set<NodeId>, target: NodeId)
      modifies this`nodes
      ensures RelinkedSoFar(old(nodes), nodes, {}, gone, target)
    {
      var work := nodes.Keys;
      while work != {}
        invariant work <= nodes.Keys
        invariant RelinkedSoFar(old(nodes), nodes, work, gone, target)
        decreases |work|
      {
        var id :| id in work;
        work := work - {id};
        if nodes[id].id != target {
          var relinked, edges := RelinkEdges(nodes[id].edges, gone, target);
          if relinked { nodes := nodes[id := nodes[id].(edges := edges)]; }
        }
      }
    }

    method Collapse(ids: seq<NodeId>, content: Content) returns (r: Result<Node, GraphError>)
      requires Valid(State())
      modifies this
      ensures match Graphs.Collapse(old(State()), ids, content)
        case Success(folded) => r == Success(folded.1) && State() == folded.0
        case Failure(e) => r == Failure(e) && State() == old(State())
    {
      hide RelinkNode, FirstMissing;
      var missing := CheckLive(ids);
      if missing.Some? { return Failure(NodeNotFound(missing.value)); }
      var gone := set id | id in ids;
      var added := AddNode(content, [], None, None);
      var node := added.value;
      RemoveAll(ids);
      RelinkAll(gone, node.id);
      return Success(node);
    }

    method CompactOldest(n: int, summarize: seq<Node> -> string, kind: string)
      returns (r: Result<Option<Node>, GraphError>)
      requires Valid(State())
      modifies this
      ensures match Graphs.CompactOldest(old(State()), n, summarize, kind)
        case Success(done) => r == Success(done.1) && State() == done.0
        case Failure(e) => r == Failure(e) && State() == old(State())
    {
      if |nodes| <= n || n <= 0 { return Success(None); }
      var oldest := Oldest(State(), n);
      var summary := summarize(oldest);
      var folded := Collapse(Ids(oldest), Content(kind, summary, Null, map[]));
      match folded {
        case Success(node) => return Success(Some(node));
        case Failure(e) => return Failure(e);
      }
    }

    /** Files `id` under each of the nodes it points at. */
    static method Enter(reverse: map<NodeId, seq<NodeId>>, edges: seq<NodeId>, id: NodeId)
      returns (entered: map<NodeId, seq<NodeId>>)
      ensures forall p, m :: Filed(entered, p, m) <==> Filed(reverse, p, m) || (m == id && p in edges)
    {
      entered := reverse;
      var i := 0;
      while i < |edges|
        invariant 0 <= i <= |edges|
        invariant forall p, m :: Filed(entered, p, m) <==> Filed(reverse, p, m) || (m == id && p in edges[..i])
      {
        assert edges[..i + 1] == edges[..i] + [edges[i]];
        entered := entered[edges[i] := (if edges[i] in entered then entered[edges[i]] else []) + [id]];
        i := i + 1;
      }
      assert edges[..i] == edges;
    }

    method ReverseAdjacency() returns (reverse: map<NodeId, seq<NodeId>>)
      requires Valid(State())
      ensures Reverses(nodes, nodes.Keys, reverse)
    {
      reverse := map[];
      var work := nodes.Keys;
      while work != {}
        invariant work <= nodes.Keys
        invariant Reverses(nodes, nodes.Keys - work, reverse)
        decreases |work|
      {
        var id :| id in work;
        work := work - {id};
        reverse := Enter(reverse, nodes[id].edges, nodes[id].id);
      }
      assert nodes.Keys - work == nodes.Keys;
    }

    /** The inner loop of one hop: the live, unseen ids of a list join the next frontier. */
    method AddUnseen(near: seq<NodeId>, seen: set<NodeId>, next: set<NodeId>) returns (more: set<NodeId>)
      ensures more == next + ((set v | v in nodes && v in near) - seen)
    {
      more := next;
      var i := 0;
      while i < |near|
        invariant 0 <= i <= |near|
        invariant more == next + ((set v | v in nodes && v in near[..i]) - seen)
      {
        assert near[..i + 1] == near[..i] + [near[i]];
        if near[i] !in seen && near[i] in nodes { more := more + {near[i]}; }
        i := i + 1;
      }
      assert near[..i] == near;
    }

    /** The middle loop of one hop: what one frontier node leads to. */
    method SearchFrom(id: NodeId, seen: set<NodeId>, next: set<NodeId>, reverse: map<NodeId, seq<NodeId>>)
      returns (more: set<NodeId>)
      requires Reverses(nodes, nodes.Keys, reverse)
      ensures more == next + (Neighbors(State(), id) - seen)
    {
      if id !in nodes {
        assert Neighbors(State(), id) == {};
        return next;
      }
      var near := nodes[id].edges + if id in reverse then reverse[id] else [];
      NearAre(State(), id, reverse);
      assert Neighbors(State(), id) == set v | v in nodes && v in near;
      more := AddUnseen(near, seen, next);
    }

    /** One hop of the search: the live nodes next to the frontier that were not seen yet. */
    method NextFrontier(frontier: set<NodeId>, seen: set<NodeId>, reverse: map<NodeId, seq<NodeId>>)
      returns (next: set<NodeId>)
      requires Reverses(nodes, nodes.Keys, reverse)
      ensures next == Around(State(), frontier) - seen
    {
      next := {};
      var work := frontier;
      ghost var done: set<NodeId> := {};
      while work != {}
        invariant done + work == frontier
        invariant next == Around(State(), done) - seen
        decreases |work|
      {
        var id :| id in work;
        work := work - {id};
        HopGrows(State(), done, id, seen, next);
        done := done + {id};
        next := SearchFrom(id, seen, next, reverse);
      }
      assert done == frontier;
    }

    method Search(start: NodeId, hops: int, reverse: map<NodeId, seq<NodeId>>) returns (seen: set<NodeId>)
      requires start in nodes && Reverses(nodes, nodes.Keys, reverse)
      ensures seen == Ball(State(), start, if hops < 0 then 0 else hops)
    {
      var frontier := {start};
      seen := {start};
      var i := 0;
      SearchStarts(State(), start);
      while i < hops
        invariant i <= if hops < 0 then 0 else hops
        invariant Searched(State(), start, i, seen, frontier)
      {
        var next := NextFrontier(frontier, seen, reverse);
        HopReaches(State(), start, i, seen, frontier, next);
        seen := seen + next;
        frontier := next;
        i := i + 1;
        if frontier == {} {
          SearchExhausted(State(), start, i, seen, hops);
          break;
        }
      }
    }

    /** Exactly the live nodes at undirected distance at most `hops`, each once, oldest first. */
    method Neighborhood(start: NodeId, hops: int) returns (r: Result<seq<Node>, GraphError>)
      requires Valid(State())
      ensures r.Failure? <==> start !in nodes
      ensures r.Failure? ==> r.error == NodeNotFound(start)
      ensures r.Success? ==>
        var reached := Ball(State(), start, if hops < 0 then 0 else hops);
        Lists(State(), reached, r.value) && |r.value| == |reached|
    {
      if start !in nodes { return Failure(NodeNotFound(start)); }
      var reverse := ReverseAdjacency();
      var seen := Search(start, hops, reverse);
      ByAgeLists(State(), seen);
      return Success(ByAge(State(), seen));
    }
  }
}
