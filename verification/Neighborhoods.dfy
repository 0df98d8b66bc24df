/**
 Undirected distance in the context graph, stated with walks, and the facts a bounded
 breadth-first search needs about it.
 */
module Neighborhoods {
  import opened Wrappers
  import opened Graphs

  /** Joined by an edge in one direction or the other, both ends live. */
  predicate Adjacent<K>(g: Graph<K>, a: NodeId, b: NodeId) {
    a in g.nodes && b in g.nodes && (b in g.nodes[a].edges || a in g.nodes[b].edges)
  }

  ghost predicate IsWalk<K>(g: Graph<K>, p: seq<NodeId>) {
    && |p| > 0
    && (forall i | 0 <= i < |p| :: p[i] in g.nodes)
    && (forall i | 0 < i < |p| :: Adjacent(g, p[i - 1], p[i]))
  }

  ghost predicate Joins<K>(g: Graph<K>, p: seq<NodeId>, u: NodeId, v: NodeId) {
    IsWalk(g, p) && p[0] == u && p[|p| - 1] == v
  }

  /** At undirected distance at most h. */
  ghost predicate Within<K>(g: Graph<K>, u: NodeId, v: NodeId, h: nat) {
    exists p :: Joins(g, p, u, v) && |p| <= h + 1
  }

  ghost function Ball<K>(g: Graph<K>, u: NodeId, h: nat): set<NodeId> {
    set v | v in g.nodes && Within(g, u, v, h)
  }

  /** The live nodes next to some node of `s`. */
  ghost function Around<K>(g: Graph<K>, s: set<NodeId>): set<NodeId> {
    set v | v in g.nodes && exists w :: w in s && Adjacent(g, w, v)
  }

  lemma BallZero<K>(g: Graph<K>, u: NodeId)
    requires u in g.nodes
    ensures Ball(g, u, 0) == {u}
  {
    assert Joins(g, [u], u, u);
  }

  lemma BallGrows<K>(g: Graph<K>, u: NodeId, h: nat)
    ensures Ball(g, u, h) <= Ball(g, u, h + 1)
  {
    forall v | v in Ball(g, u, h) ensures Within(g, u, v, h + 1) {
      var p :| Joins(g, p, u, v) && |p| <= h + 1;
    }
  }

  /** One more hop adds the nodes next to what was reached. */
  lemma BallStep<K>(g: Graph<K>, u: NodeId, h: nat)
    ensures Ball(g, u, h + 1) == Ball(g, u, h) + Around(g, Ball(g, u, h))
  {
    BallGrows(g, u, h);
    forall v | v in Ball(g, u, h + 1) ensures v in Ball(g, u, h) + Around(g, Ball(g, u, h)) {
      var p :| Joins(g, p, u, v) && |p| <= h + 2;
      if |p| == h + 2 {
        var q := p[..|p| - 1];
        assert Joins(g, q, u, q[|q| - 1]);
        assert q[|q| - 1] in Ball(g, u, h) && Adjacent(g, q[|q| - 1], v);
      }
    }
    forall v | v in Around(g, Ball(g, u, h)) ensures v in Ball(g, u, h + 1) {
      var w :| w in Ball(g, u, h) && Adjacent(g, w, v);
      var p :| Joins(g, p, u, w) && |p| <= h + 1;
      assert Joins(g, p + [v], u, v);
    }
  }

  /** Nothing new at one hop means nothing new ever after. */
  lemma {:induction false} BallStops<K>(g: Graph<K>, u: NodeId, h: nat, k: nat)
    requires h <= k && Around(g, Ball(g, u, h)) <= Ball(g, u, h)
    ensures Ball(g, u, k) == Ball(g, u, h)
    decreases k - h
  {
    if h < k {
      BallStops(g, u, h, k - 1);
      BallStep(g, u, k - 1);
    }
  }

  // ---------------------------------------------------------------- size

  ghost function Neighbors<K>(g: Graph<K>, v: NodeId): set<NodeId> {
    set w | w in g.nodes && Adjacent(g, v, w)
  }

  /** No live node has more than d neighbours. */
  ghost predicate Degree<K>(g: Graph<K>, d: nat) {
    forall v {:trigger Neighbors(g, v)} | v in g.nodes :: |Neighbors(g, v)| <= d
  }

  function Power(d: nat, h: nat): nat {
    if h == 0 then 1 else d * Power(d, h - 1)
  }

  /** 1 + d + ... + d^h */
  function Geometric(d: nat, h: nat): nat {
    if h == 0 then 1 else Geometric(d, h - 1) + Power(d, h)
  }

  lemma SubsetSize<T>(a: set<T>, b: set<T>)
    requires a <= b
    ensures |a| <= |b|
  {
    assert b == a + (b - a);
  }

  lemma AroundSplits<K>(g: Graph<K>, s: set<NodeId>, v: NodeId)
    requires v in s
    ensures |Around(g, s)| <= |Around(g, s - {v})| + |Neighbors(g, v)|
  {
    var a, b := Around(g, s - {v}), Neighbors(g, v);
    assert Around(g, s) == a + b;
    assert a + b == a + (b - a);
  }

  lemma AddMultiple(d: nat, n: nat)
    ensures d * (n + 1) == d * n + d
  {
  }

  lemma {:induction false} AroundSize<K>(g: Graph<K>, s: set<NodeId>, d: nat)
    requires s <= g.nodes.Keys && Degree(g, d)
    ensures |Around(g, s)| <= d * |s|
    decreases |s|
  {
    if s == {} {
      assert Around(g, s) == {};
    } else {
      var v :| v in s;
      AroundSplits(g, s, v);
      AroundSize(g, s - {v}, d);
      AddMultiple(d, |s - {v}|);
    }
  }

  /** The nodes at distance exactly h. */
  ghost function Sphere<K>(g: Graph<K>, u: NodeId, h: nat): set<NodeId> {
    if h == 0 then Ball(g, u, 0) else Ball(g, u, h) - Ball(g, u, h - 1)
  }

  lemma SphereStep<K>(g: Graph<K>, u: NodeId, h: nat)
    ensures Sphere(g, u, h + 1) <= Around(g, Sphere(g, u, h))
  {
    BallStep(g, u, h);
    if h > 0 {
      BallStep(g, u, h - 1);
      forall v | v in Sphere(g, u, h + 1) ensures v in Around(g, Sphere(g, u, h)) {
        var w :| w in Ball(g, u, h) && Adjacent(g, w, v);
        assert w !in Ball(g, u, h - 1);
      }
    }
  }

  lemma SphereStepSize<K>(g: Graph<K>, u: NodeId, h: nat, d: nat)
    requires u in g.nodes && Degree(g, d)
    ensures |Sphere(g, u, h + 1)| <= d * |Sphere(g, u, h)|
  {
    SphereStep(g, u, h);
    SubsetSize(Sphere(g, u, h + 1), Around(g, Sphere(g, u, h)));
    AroundSize(g, Sphere(g, u, h), d);
  }

  lemma SphereZero<K>(g: Graph<K>, u: NodeId)
    requires u in g.nodes
    ensures |Sphere(g, u, 0)| == 1 && |Ball(g, u, 0)| == 1
  {
    BallZero(g, u);
  }

  lemma MultiplyMonotone(d: nat, a: nat, b: nat)
    requires a <= b
    ensures d * a <= d * b
  {
    assert d * b == d * a + d * (b - a);
  }

  /** Layers that grow at most d-fold from a single node, added up. */
  lemma {:induction false} GeometricGrowth(layer: nat -> nat, total: nat -> nat, d: nat, h: nat)
    requires layer(0) <= 1 && total(0) <= 1
    requires forall k: nat :: layer(k + 1) <= d * layer(k) && total(k + 1) <= total(k) + layer(k + 1)
    ensures layer(h) <= Power(d, h) && total(h) <= Geometric(d, h)
  {
    if h > 0 {
      GeometricGrowth(layer, total, d, h - 1);
      MultiplyMonotone(d, layer(h - 1), Power(d, h - 1));
      assert layer(h - 1 + 1) <= d * layer(h - 1);
    }
  }

  lemma BallSplits<K>(g: Graph<K>, u: NodeId, h: nat)
    ensures |Ball(g, u, h + 1)| <= |Ball(g, u, h)| + |Sphere(g, u, h + 1)|
  {
    BallGrows(g, u, h);
    var a, b := Ball(g, u, h), Ball(g, u, h + 1);
    assert b == a + (b - a);
  }

  /** At most d neighbours a node: a neighbourhood's size is bounded whatever the size of the graph. */
  lemma BallSize<K>(g: Graph<K>, u: NodeId, h: nat, d: nat)
    requires u in g.nodes && Degree(g, d)
    ensures |Ball(g, u, h)| <= Geometric(d, h)
  {
    var layer: nat -> nat := k => |Sphere(g, u, k)|;
    var total: nat -> nat := k => |Ball(g, u, k)|;
    SphereZero(g, u);
    forall k: nat ensures layer(k + 1) <= d * layer(k) && total(k + 1) <= total(k) + layer(k + 1) {
      SphereStepSize(g, u, k, d);
      BallSplits(g, u, k);
    }
    GeometricGrowth(layer, total, d, h);
  }

  // ---------------------------------------------------------------- locality

  /** A new node that nothing points at, added to the graph. */
  ghost predicate Extends<K>(g: Graph<K>, g': Graph<K>, node: Node) {
    && node.id !in g.nodes
    && g'.nodes == g.nodes[node.id := node]
    && forall v | v in g.nodes :: node.id !in g.nodes[v].edges
  }

  lemma BallIsLive<K>(g: Graph<K>, u: NodeId, h: nat)
    ensures Ball(g, u, h) <= g.nodes.Keys
  {
  }

  /** A new node whose edges avoid everything within h - 1 hops leaves the h-hop neighbourhood as it was. */
  lemma {:induction false} BallIsLocal<K>(g: Graph<K>, g': Graph<K>, node: Node, u: NodeId, h: nat)
    requires u in g.nodes && Extends(g, g', node)
    requires h > 0 ==> forall e | e in node.edges :: e !in Ball(g, u, h - 1)
    ensures Ball(g', u, h) == Ball(g, u, h)
  {
    hide Ball;
    if h == 0 {
      BallZero(g, u);
      BallZero(g', u);
    } else {
      BallGrowsTo(g, u, h - 1);
      BallIsLocal(g, g', node, u, h - 1);
      BallStep(g, u, h - 1);
      BallStep(g', u, h - 1);
      var b := Ball(g, u, h - 1);
      BallIsLive(g, u, h - 1);
      forall v ensures v in Around(g', b) <==> v in Around(g, b) {
        forall w | w in b ensures Adjacent(g', w, v) == Adjacent(g, w, v) {
        }
      }
    }
  }

  lemma BallGrowsTo<K>(g: Graph<K>, u: NodeId, h: nat)
    ensures h > 0 ==> Ball(g, u, h - 1) <= Ball(g, u, h)
  {
    if h > 0 { BallGrows(g, u, h - 1); }
  }
}
