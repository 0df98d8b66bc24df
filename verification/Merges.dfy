/**
 Interleavings.  A group's worker threads each perform their own list of actions; what the run
 performs is some merge of those lists.
 */
module Merges {
  import opened Wrappers
  import opened Values
  import opened Runtime

  function Init<T>(s: seq<T>): seq<T>
    requires s != []
  {
    s[..|s| - 1]
  }

  function Last<T>(s: seq<T>): T
    requires s != []
  {
    s[|s| - 1]
  }

  ghost predicate AllEmpty<T>(members: seq<seq<T>>) {
    forall k | 0 <= k < |members| :: members[k] == []
  }

  /** Member k is the one whose action came last. */
  ghost predicate EndsWith<T>(l: seq<T>, members: seq<seq<T>>, k: nat)
    requires l != []
  {
    k < |members| && members[k] != [] && Last(members[k]) == Last(l)
  }

  function DropLast<T>(members: seq<seq<T>>, k: nat): seq<seq<T>>
    requires k < |members| && members[k] != []
  {
    members[k := Init(members[k])]
  }

  /** `l` is an interleaving of the members, each in its own order. */
  ghost predicate IsMerge<T(!new)>(l: seq<T>, members: seq<seq<T>>)
    decreases |l|
  {
    if l == [] then AllEmpty(members)
    else exists k: nat :: EndsWith(l, members, k) && IsMerge(Init(l), DropLast(members, k))
  }

  /** Member k moves: the way an interleaving grows. */
  lemma MergeGrows<T(!new)>(l: seq<T>, members: seq<seq<T>>, k: nat, a: T)
    requires IsMerge(l, members) && k < |members|
    ensures IsMerge(l + [a], members[k := members[k] + [a]])
  {
    var l', members' := l + [a], members[k := members[k] + [a]];
    assert Init(l') == l && Init(members'[k]) == members[k];
    assert DropLast(members', k) == members;
    assert EndsWith(l', members', k);
  }

  function Flatten<T>(members: seq<seq<T>>): seq<T> {
    if members == [] then [] else Flatten(Init(members)) + Last(members)
  }

  lemma {:induction false} FlattenEmpty<T>(members: seq<seq<T>>)
    requires AllEmpty(members)
    ensures Flatten(members) == []
    decreases |members|
  {
    if members != [] { FlattenEmpty(Init(members)); }
  }

  /** Everything performed is some member's, and every member's actions are performed. */
  lemma {:induction false} MergeElements<T(!new)>(l: seq<T>, members: seq<seq<T>>)
    requires IsMerge(l, members)
    ensures forall a :: a in l <==> exists k :: 0 <= k < |members| && a in members[k]
    decreases |l|
  {
    if l != [] {
      var k: nat :| EndsWith(l, members, k) && IsMerge(Init(l), DropLast(members, k));
      var before := DropLast(members, k);
      MergeElements(Init(l), before);
      assert l == Init(l) + [Last(l)] && members[k] == before[k] + [Last(l)];
      forall a ensures a in l <==> exists j :: 0 <= j < |members| && a in members[j] {
        if j :| 0 <= j < |members| && a in members[j] {
          if a != Last(l) { assert a in before[j]; }
        } else if j :| 0 <= j < |before| && a in before[j] {
          assert a in members[j];
        }
      }
    }
  }

  // ---------------------------------------------------------------- projections

  /** The actions about one key, in order. */
  function Project(l: seq<Action>, key: Key): seq<Action> {
    if l == [] then []
    else Project(Init(l), key) + (if KeyOf(Last(l)) == key then [Last(l)] else [])
  }

  lemma ProjectSnoc(l: seq<Action>, a: Action, key: Key)
    ensures Project(l + [a], key) == Project(l, key) + (if KeyOf(a) == key then [a] else [])
  {
    assert Init(l + [a]) == l;
  }

  lemma {:induction false} ProjectConcat(l: seq<Action>, m: seq<Action>, key: Key)
    ensures Project(l + m, key) == Project(l, key) + Project(m, key)
    decreases |m|
  {
    if m == [] {
      assert l + m == l;
    } else {
      ProjectConcat(l, Init(m), key);
      assert Init(l + m) == l + Init(m);
    }
  }

  ghost predicate About(l: seq<Action>, key: Key) {
    forall i | 0 <= i < |l| :: KeyOf(l[i]) == key
  }

  ghost predicate Avoids(l: seq<Action>, key: Key) {
    forall i | 0 <= i < |l| :: KeyOf(l[i]) != key
  }

  lemma {:induction false} ProjectAll(l: seq<Action>, key: Key)
    requires About(l, key)
    ensures Project(l, key) == l
    decreases |l|
  {
    if l != [] { ProjectAll(Init(l), key); }
  }

  lemma {:induction false} ProjectNone(l: seq<Action>, key: Key)
    requires Avoids(l, key)
    ensures Project(l, key) == []
    decreases |l|
  {
    if l != [] { ProjectNone(Init(l), key); }
  }

  /** A projection is made of the list's own actions about that key. */
  lemma {:induction false} ProjectElements(l: seq<Action>, key: Key)
    ensures forall a :: a in Project(l, key) <==> a in l && KeyOf(a) == key
    decreases |l|
  {
    if l != [] {
      ProjectElements(Init(l), key);
      assert l == Init(l) + [Last(l)];
    }
  }

  /** What was performed so far projects to a prefix of what will have been performed. */
  lemma ProjectPrefix(l: seq<Action>, n: nat, key: Key)
    requires n <= |l|
    ensures Project(l[..n], key) <= Project(l, key)
  {
    ProjectConcat(l[..n], l[n..], key);
    assert l[..n] + l[n..] == l;
  }

  /** Only member k has anything about the key. */
  ghost predicate Owns(members: seq<seq<Action>>, k: nat, key: Key) {
    k < |members| && forall j | 0 <= j < |members| && j != k :: Avoids(members[j], key)
  }

  /** Whatever the interleaving, one owner's actions are seen in the owner's order. */
  lemma {:induction false} MergeProjects(l: seq<Action>, members: seq<seq<Action>>, k: nat, key: Key)
    requires IsMerge(l, members) && Owns(members, k, key)
    ensures Project(l, key) == Project(members[k], key)
    decreases |l|
  {
    if l != [] {
      var j: nat :| EndsWith(l, members, j) && IsMerge(Init(l), DropLast(members, j));
      var before := DropLast(members, j);
      assert Owns(before, k, key);
      MergeProjects(Init(l), before, k, key);
      if j != k { assert KeyOf(Last(members[j])) != key; }
    }
  }

  lemma {:induction false} FlattenProjects(members: seq<seq<Action>>, k: nat, key: Key)
    requires Owns(members, k, key)
    ensures Project(Flatten(members), key) == Project(members[k], key)
    decreases |members|
  {
    var init, last := Init(members), Last(members);
    ProjectConcat(Flatten(init), last, key);
    if k == |members| - 1 {
      FlattenAvoids(init, key);
      ProjectNone(Flatten(init), key);
    } else {
      FlattenProjects(init, k, key);
      ProjectNone(last, key);
    }
  }

  lemma {:induction false} FlattenAvoids(members: seq<seq<Action>>, key: Key)
    requires forall j | 0 <= j < |members| :: Avoids(members[j], key)
    ensures Avoids(Flatten(members), key)
    decreases |members|
  {
    if members != [] { FlattenAvoids(Init(members), key); }
  }

  lemma MergeAvoids(l: seq<Action>, members: seq<seq<Action>>, key: Key)
    requires IsMerge(l, members) && forall j | 0 <= j < |members| :: Avoids(members[j], key)
    ensures Avoids(l, key)
  {
    MergeElements(l, members);
    forall i | 0 <= i < |l| ensures KeyOf(l[i]) != key {
      assert l[i] in l;
      var k :| 0 <= k < |members| && l[i] in members[k];
    }
  }
}
