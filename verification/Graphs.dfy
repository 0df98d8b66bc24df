/**
 The context graph as a value: what each operation of the mutable graph does to its dictionaries
 and counters.  The class in MindGraphs.dfy is proved against these functions.
 */
module Graphs {
  import opened Wrappers
  import opened Numerals
  import opened Values

  type NodeId = string

  /** What the graph carries for a node without interpreting it. */
  datatype Content = Content(kind: string, summary: string, full: Value, metadata: map<string, Value>)

  datatype Node = Node(id: NodeId, content: Content, edges: seq<NodeId>, order: nat)

  datatype Graph<K(==)> = Graph(
    nodes: map<NodeId, Node>,
    nextOrder: nat,
    nextAuto: nat,
    index: map<K, NodeId>)

  datatype GraphError = NodeNotFound(id: NodeId) | DuplicateId(id: NodeId)

  function Empty<K>(): Graph<K> {
    Graph(map[], 1, 1, map[])
  }

  /** The id given to a node added without one. */
  function AutoId(k: nat): NodeId { "n" + Digits(k) }

  lemma AutoIdInjective(j: nat, k: nat)
    requires AutoId(j) == AutoId(k)
    ensures j == k
  {
    assert AutoId(j)[1..] == Digits(j) && AutoId(k)[1..] == Digits(k);
    DigitsInjective(j, k);
  }

  /** What the representation always satisfies: nodes sit under their own id, with distinct sequence numbers. */
  ghost predicate Valid<K>(g: Graph<K>) {
    && (forall id | id in g.nodes :: g.nodes[id].id == id && g.nodes[id].order < g.nextOrder)
    && (forall a, b | a in g.nodes && b in g.nodes && g.nodes[a].order == g.nodes[b].order :: a == b)
  }

  /** No automatic id still to be handed out is in use. */
  ghost predicate AutoFresh<K>(g: Graph<K>) {
    forall k | k >= g.nextAuto :: AutoId(k) !in g.nodes
  }

  /** No edge dangles. */
  ghost predicate Closed<K>(g: Graph<K>) {
    forall id, i | id in g.nodes && 0 <= i < |g.nodes[id].edges| :: g.nodes[id].edges[i] in g.nodes
  }

  // ---------------------------------------------------------------- operations

  /** The first member of `ids` that is not live, if any. */
  function FirstMissing<K>(g: Graph<K>, ids: seq<NodeId>): (r: Option<NodeId>)
    ensures r.None? <==> forall i | 0 <= i < |ids| :: ids[i] in g.nodes
    ensures r.Some? ==> r.value in ids && r.value !in g.nodes
  {
    if ids == [] then None
    else if ids[0] !in g.nodes then Some(ids[0])
    else
      assert forall i | 0 < i < |ids| :: ids[i] == ids[1..][i - 1];
      FirstMissing(g, ids[1..])
  }

  function Insert<K>(g: Graph<K>, node: Node, key: Option<K>): Graph<K> {
    g.(nodes := g.nodes[node.id := node],
       nextOrder := g.nextOrder + 1,
       index := if key.Some? then g.index[key.value := node.id] else g.index)
  }

  function AddNode<K>(g: Graph<K>, content: Content, edges: seq<NodeId>, id: Option<NodeId>, key: Option<K>)
    : Result<(Graph<K>, Node), GraphError>
  {
    var missing := FirstMissing(g, edges);
    if missing.Some? then Failure(NodeNotFound(missing.value))
    else if id.None? then
      var node := Node(AutoId(g.nextAuto), content, edges, g.nextOrder);
      Success((Insert(g, node, key).(nextAuto := g.nextAuto + 1), node))
    else if id.value in g.nodes then Failure(DuplicateId(id.value))
    else
      var node := Node(id.value, content, edges, g.nextOrder);
      Success((Insert(g, node, key), node))
  }

  /** None when no live node is registered under the key. */
  function GetByKey<K>(g: Graph<K>, key: K): Option<Node> {
    if key !in g.index || g.index[key] !in g.nodes then None else Some(g.nodes[g.index[key]])
  }

  function Link<K>(g: Graph<K>, id: NodeId, dependsOn: NodeId): Result<Graph<K>, GraphError> {
    if id !in g.nodes then Failure(NodeNotFound(id))
    else if dependsOn !in g.nodes then Failure(NodeNotFound(dependsOn))
    else if dependsOn in g.nodes[id].edges then Success(g)
    else Success(g.(nodes := g.nodes[id := g.nodes[id].(edges := g.nodes[id].edges + [dependsOn])]))
  }

  function Remove<K>(g: Graph<K>, id: NodeId): Graph<K> {
    g.(nodes := g.nodes - {id})
  }

  /** Where an edge points once the ids in `gone` are folded into `target`. */
  function Redirect(edge: NodeId, gone: set<NodeId>, target: NodeId): NodeId {
    if edge in gone then target else edge
  }

  /** An edge list after the fold: redirected, keeping only the first of equal targets. */
  function Relink(edges: seq<NodeId>, gone: set<NodeId>, target: NodeId): seq<NodeId> {
    if edges == [] then []
    else
      var before := Relink(edges[..|edges| - 1], gone, target);
      var t := Redirect(edges[|edges| - 1], gone, target);
      if t in before then before else before + [t]
  }

  /** One node after the fold; the new node itself is left alone. */
  function RelinkNode(node: Node, gone: set<NodeId>, target: NodeId): Node {
    if node.id == target then node else node.(edges := Relink(node.edges, gone, target))
  }

  function Collapse<K>(g: Graph<K>, ids: seq<NodeId>, content: Content): Result<(Graph<K>, Node), GraphError> {
    var missing := FirstMissing(g, ids);
    if missing.Some? then Failure(NodeNotFound(missing.value))
    else
      var node := Node(AutoId(g.nextAuto), content, [], g.nextOrder);
      var added := Insert(g, node, None).(nextAuto := g.nextAuto + 1);
      var gone := set id | id in ids;
      var nodes := map id | id in added.nodes && id !in gone :: RelinkNode(added.nodes[id], gone, node.id);
      Success((added.(nodes := nodes), node))
  }

  // ---------------------------------------------------------------- ordering by age

  ghost predicate Ordered(s: seq<Node>) {
    forall i, j | 0 <= i < j < |s| :: s[i].order < s[j].order
  }

  /** `s` lists the live nodes with these ids, each once, oldest first. */
  ghost predicate Lists<K>(g: Graph<K>, ids: set<NodeId>, s: seq<Node>) {
    && Ordered(s)
    && (forall i | 0 <= i < |s| :: s[i].id in ids && s[i].id in g.nodes && s[i] == g.nodes[s[i].id])
    && (forall id | id in ids && id in g.nodes :: g.nodes[id] in s)
  }

  predicate IsOldest<K>(g: Graph<K>, ids: set<NodeId>, id: NodeId)
    requires ids <= g.nodes.Keys
  {
    id in ids && forall x | x in ids :: g.nodes[id].order <= g.nodes[x].order
  }

  lemma {:induction false} OldestExists<K>(g: Graph<K>, ids: set<NodeId>)
    requires ids <= g.nodes.Keys && ids != {}
    ensures exists id :: IsOldest(g, ids, id)
  {
    var id :| id in ids;
    if ids == {id} {
      assert IsOldest(g, ids, id);
    } else {
      OldestExists(g, ids - {id});
      var rest :| IsOldest(g, ids - {id}, rest);
      assert IsOldest(g, ids, if g.nodes[rest].order < g.nodes[id].order then rest else id);
    }
  }

  /** sorted(nodes, key=seq) over the live nodes with these ids */
  function ByAge<K>(g: Graph<K>, ids: set<NodeId>): (s: seq<Node>)
    requires Valid(g) && ids <= g.nodes.Keys
    ensures |s| == |ids|
  {
    if ids == {} then []
    else
      OldestExists(g, ids);
      var id :| IsOldest(g, ids, id);
      [g.nodes[id]] + ByAge(g, ids - {id})
  }

  lemma PrependOldest<K>(g: Graph<K>, ids: set<NodeId>, id: NodeId, rest: seq<Node>)
    requires Valid(g) && ids <= g.nodes.Keys && IsOldest(g, ids, id) && Lists(g, ids - {id}, rest)
    ensures Lists(g, ids, [g.nodes[id]] + rest)
  {
    var s := [g.nodes[id]] + rest;
    forall i, j | 0 <= i < j < |s| ensures s[i].order < s[j].order {
      assert s[j] == rest[j - 1];
      if i > 0 { assert s[i] == rest[i - 1]; }
    }
    forall x | x in ids ensures g.nodes[x] in s {
      if x == id { assert s[0] == g.nodes[x]; } else { assert g.nodes[x] in rest; }
    }
  }

  /** The sorted list holds exactly the asked-for nodes, strictly oldest first. */
  lemma {:induction false} ByAgeLists<K>(g: Graph<K>, ids: set<NodeId>)
    requires Valid(g) && ids <= g.nodes.Keys
    ensures Lists(g, ids, ByAge(g, ids))
    decreases |ids|
  {
    if ids != {} {
      OldestExists(g, ids);
      var id :| IsOldest(g, ids, id) && ByAge(g, ids) == [g.nodes[id]] + ByAge(g, ids - {id});
      ByAgeLists(g, ids - {id});
      PrependOldest(g, ids, id, ByAge(g, ids - {id}));
    }
  }

  function AllNodes<K>(g: Graph<K>): seq<Node>
    requires Valid(g)
  {
    ByAge(g, g.nodes.Keys)
  }

  /** all_nodes()[:n] */
  function Oldest<K>(g: Graph<K>, n: nat): seq<Node>
    requires Valid(g) && n <= |g.nodes|
  {
    AllNodes(g)[..n]
  }

  function Ids(s: seq<Node>): (ids: seq<NodeId>)
    ensures |ids| == |s| && forall i | 0 <= i < |s| :: ids[i] == s[i].id
  {
    seq(|s|, i requires 0 <= i < |s| => s[i].id)
  }

  /** The `n` oldest nodes folded into one; None, and no change, when n <= 0 or nothing would be left over. */
  function CompactOldest<K>(g: Graph<K>, n: int, summarize: seq<Node> -> string, kind: string)
    : Result<(Graph<K>, Option<Node>), GraphError>
    requires Valid(g)
  {
    if |g.nodes| <= n || n <= 0 then Success((g, None))
    else
      var oldest := Oldest(g, n);
      match Collapse(g, Ids(oldest), Content(kind, summarize(oldest), Null, map[]))
      case Failure(e) => Failure(e)
      case Success(r) => Success((r.0, Some(r.1)))
  }
}
