/**
 Dedup keys whose node is gone.  remove() and collapse() leave the index as it is; this says exactly for
 how long such a key goes on answering None.
 */
module StaleKeys {
  import opened Wrappers
  import opened Numerals
  import opened Values
  import opened Graphs
  import opened GraphLaws

  /** Any change to the graph, a bare removal included. */
  datatype Change<K> = Do(op: Op<K>) | Drop(id: NodeId)

  function Changed<K>(g: Graph<K>, c: Change<K>): Graph<K>
    requires Valid(g)
  {
    match c
    case Do(op) => Apply(g, op)
    case Drop(id) => Remove(g, id)
  }

  lemma CollapseStaysValid<K>(g: Graph<K>, ids: seq<NodeId>, content: Content)
    requires Valid(g) && CollapseSucceeds(g, ids)
    ensures Valid(Collapse(g, ids, content).value.0)
  {
    AddKeeps(g, content, [], None, None);
  }

  lemma ChangedStaysValid<K>(g: Graph<K>, c: Change<K>)
    requires Valid(g)
    ensures Valid(Changed(g, c))
  {
    if c.Do? {
      match c.op
      case Add(content, edges, id, key) =>
        if AddNode(g, content, edges, id, key).Success? { AddKeeps(g, content, edges, id, key); }
      case Join(_, _) =>
      case Fold(ids, content) =>
        if CollapseSucceeds(g, ids) { CollapseStaysValid(g, ids, content); }
      case Compact(n, summarize, kind) =>
        if 0 < n < |g.nodes| {
          CompactFolds(g, n, summarize, kind);
          CollapseStaysValid(g, Ids(Oldest(g, n)), BatchContent(g, n, summarize, kind));
        }
    }
  }

  predicate Registers<K(==)>(c: Change<K>, key: K) {
    c.Do? && c.op.Add? && c.op.key == Some(key)
  }

  /** Nothing but registering a key changes where it points. */
  lemma KeysStay<K>(g: Graph<K>, c: Change<K>, key: K)
    requires Valid(g) && key in g.index && !Registers(c, key)
    ensures key in Changed(g, c).index && Changed(g, c).index[key] == g.index[key]
  {
    if c.Do? && c.op.Compact? && 0 < c.op.n < |g.nodes| { CompactFolds(g, c.op.n, c.op.summarize, c.op.kind); }
  }

  /** The change makes a node under the id d: asked for by name, or next in the numbering. */
  ghost predicate Brings<K>(g: Graph<K>, c: Change<K>, d: NodeId) {
    c.Do? &&
    match c.op
    case Add(_, edges, id, _) => (forall e | e in edges :: e in g.nodes) && d == (if id.Some? then id.value else AutoId(g.nextAuto))
    case Join(_, _) => false
    case Fold(ids, _) => (forall id | id in ids :: id in g.nodes) && d == AutoId(g.nextAuto)
    case Compact(n, _, _) => 0 < n < |g.nodes| && d == AutoId(g.nextAuto)
  }

  lemma CollapseBrings<K>(g: Graph<K>, ids: seq<NodeId>, content: Content, d: NodeId)
    requires Valid(g) && CollapseSucceeds(g, ids) && d !in g.nodes
    ensures d in Collapse(g, ids, content).value.0.nodes <==> d == AutoId(g.nextAuto)
  {
  }

  lemma BringsIff<K>(g: Graph<K>, c: Change<K>, d: NodeId)
    requires Valid(g) && d !in g.nodes
    ensures d in Changed(g, c).nodes <==> Brings(g, c, d)
  {
    if c.Do? {
      match c.op
      case Add(content, edges, id, key) =>
        assert (forall e | e in edges :: e in g.nodes) <==> FirstMissing(g, edges).None?;
      case Join(_, _) =>
      case Fold(ids, content) =>
        assert (forall id | id in ids :: id in g.nodes) <==> FirstMissing(g, ids).None?;
        if FirstMissing(g, ids).None? { CollapseBrings(g, ids, content, d); }
      case Compact(n, summarize, kind) =>
        if 0 < n < |g.nodes| {
          CompactFolds(g, n, summarize, kind);
          CollapseBrings(g, Ids(Oldest(g, n)), BatchContent(g, n, summarize, kind), d);
        }
    }
  }

  /** `run` is a stretch of the graph's life, from any state on. */
  ghost predicate IsStretch<K(!new)>(run: seq<Graph<K>>, changes: seq<Change<K>>) {
    && |run| == |changes| + 1
    && Valid(run[0])
    && forall i | 0 <= i < |changes| :: Valid(run[i]) ==> run[i + 1] == Changed(run[i], changes[i])
  }

  /** Until the key is registered again it finds whatever node has the id it was registered with, if any. */
  lemma {:induction false} KeyFindsItsId<K(!new)>(run: seq<Graph<K>>, changes: seq<Change<K>>, key: K, i: nat)
    requires IsStretch(run, changes) && key in run[0].index && i < |run|
    requires forall k | 0 <= k < i :: !Registers(changes[k], key)
    ensures var d := run[0].index[key];
      && Valid(run[i]) && key in run[i].index && run[i].index[key] == d
      && GetByKey(run[i], key) == if d in run[i].nodes then Some(run[i].nodes[d]) else None
    decreases i
  {
    hide Changed, Valid;
    if i > 0 {
      KeyFindsItsId(run, changes, key, i - 1);
      ChangedStaysValid(run[i - 1], changes[i - 1]);
      KeysStay(run[i - 1], changes[i - 1], key);
    } else {
      StretchStarts(run, changes);
    }
  }

  lemma StretchStarts<K(!new)>(run: seq<Graph<K>>, changes: seq<Change<K>>)
    requires IsStretch(run, changes)
    ensures Valid(run[0])
  {
  }

  lemma {:induction false} GoneUntilBrought<K(!new)>(run: seq<Graph<K>>, changes: seq<Change<K>>, d: NodeId, i: nat)
    requires IsStretch(run, changes) && d !in run[0].nodes && i < |run|
    requires forall k | 0 <= k < i :: !Brings(run[k], changes[k], d)
    ensures Valid(run[i]) && d !in run[i].nodes
    decreases i
  {
    hide Changed, Valid;
    if i > 0 {
      GoneUntilBrought(run, changes, d, i - 1);
      ChangedStaysValid(run[i - 1], changes[i - 1]);
      BringsIff(run[i - 1], changes[i - 1], d);
      assert !Brings(run[i - 1], changes[i - 1], d);
    } else {
      StretchStarts(run, changes);
    }
  }

  /** The first change that makes a node under the id again, if some change does. */
  lemma {:induction false} FirstBringing<K(!new)>(run: seq<Graph<K>>, changes: seq<Change<K>>, d: NodeId, n: nat) returns (i: nat)
    requires IsStretch(run, changes) && n < |changes| && Brings(run[n], changes[n], d)
    ensures i <= n && Brings(run[i], changes[i], d) && forall k | 0 <= k < i :: !Brings(run[k], changes[k], d)
    decreases n
  {
    hide Brings;
    if k :| 0 <= k < n && Brings(run[k], changes[k], d) {
      i := FirstBringing(run, changes, d, k);
    } else {
      i := n;
    }
  }

  /**
   A key whose node is gone answers None for as long as nobody registers it exactly when no change makes
   a node under the old id: by that name, or because automatic numbering reaches it.
   */
  lemma StaleKeyAnswersNoneIff<K(!new)>(run: seq<Graph<K>>, changes: seq<Change<K>>, key: K)
    requires IsStretch(run, changes) && key in run[0].index && run[0].index[key] !in run[0].nodes
    requires forall k | 0 <= k < |changes| :: !Registers(changes[k], key)
    ensures (forall i | 0 <= i < |run| :: GetByKey(run[i], key).None?) <==>
      (forall k | 0 <= k < |changes| :: !Brings(run[k], changes[k], run[0].index[key]))
  {
    hide Changed, Valid, Brings, GetByKey;
    var d := run[0].index[key];
    if forall k | 0 <= k < |changes| :: !Brings(run[k], changes[k], d) {
      forall i | 0 <= i < |run| ensures GetByKey(run[i], key).None? {
        GoneUntilBrought(run, changes, d, i);
        KeyFindsItsId(run, changes, key, i);
      }
    } else {
      var n :| 0 <= n < |changes| && Brings(run[n], changes[n], d);
      var i := FirstBringing(run, changes, d, n);
      GoneUntilBrought(run, changes, d, i);
      BringsIff(run[i], changes[i], d);
      KeyFindsItsId(run, changes, key, i + 1);
      assert GetByKey(run[i + 1], key).Some?;
    }
  }

  /** Removing a node leaves its key stale. */
  lemma RemoveLeavesKey<K>(g: Graph<K>, key: K)
    requires key in g.index
    ensures var g' := Remove(g, g.index[key]);
      GetByKey(g', key).None? && key in g'.index && g'.index[key] == g.index[key]
  {
  }

  /** And it can find a node that was never registered under it: "a" removed and added again without a key. */
  lemma StaleKeyFindsAnother(a: Content, b: Content)
    ensures var g := AddNode<string>(Empty(), a, [], Some("a"), Some("key")).value.0;
      var again := AddNode(Remove(g, "a"), b, [], Some("a"), None);
      && GetByKey(Remove(g, "a"), "key").None?
      && again.Success? && GetByKey(again.value.0, "key") == Some(again.value.1)
  {
  }
}
