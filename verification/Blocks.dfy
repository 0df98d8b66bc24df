/**
 A run as a sequence of blocks: lists performed by one thread alone, and forks whose members may
 interleave in any way.  A linearization is one order in which it may all happen.
 */
module Blocks {
  import opened Runtime
  import opened Merges

  datatype Block = Solo(actions: seq<Action>) | Fork(members: seq<seq<Action>>)

  ghost predicate Performs(l: seq<Action>, block: Block) {
    match block
    case Solo(actions) => l == actions
    case Fork(members) => IsMerge(l, members)
  }

  ghost predicate Splits(l: seq<Action>, blocks: seq<Block>, n: nat)
    requires blocks != []
  {
    n <= |l| && Performs(l[n..], Last(blocks))
  }

  ghost predicate Linearizes(l: seq<Action>, blocks: seq<Block>)
    decreases |blocks|
  {
    if blocks == [] then l == []
    else exists n: nat :: Splits(l, blocks, n) && Linearizes(l[..n], Init(blocks))
  }

  lemma LinearizesSnoc(l: seq<Action>, blocks: seq<Block>, m: seq<Action>, block: Block)
    requires Linearizes(l, blocks) && Performs(m, block)
    ensures Linearizes(l + m, blocks + [block])
  {
    hide IsMerge;
    assert (l + m)[..|l|] == l && (l + m)[|l|..] == m;
    assert Init(blocks + [block]) == blocks;
    assert Splits(l + m, blocks + [block], |l|);
  }

  /** `Linearizes` under a name that proofs can keep folded. */
  ghost predicate Realizes(l: seq<Action>, blocks: seq<Block>) {
    Linearizes(l, blocks)
  }

  lemma RealizesSnoc(l: seq<Action>, blocks: seq<Block>, m: seq<Action>, block: Block)
    requires Realizes(l, blocks) && Performs(m, block)
    ensures Realizes(l + m, blocks + [block])
  {
    LinearizesSnoc(l, blocks, m, block);
  }

  /** The converse: the last block was performed last. */
  lemma LinearizesEnds(l: seq<Action>, blocks: seq<Block>) returns (before: seq<Action>, during: seq<Action>)
    requires Linearizes(l, blocks) && blocks != []
    ensures l == before + during && Linearizes(before, Init(blocks)) && Performs(during, Last(blocks))
  {
    var n: nat :| Splits(l, blocks, n) && Linearizes(l[..n], Init(blocks));
    before, during := l[..n], l[n..];
  }

  lemma Associates<T>(a: seq<T>, b: seq<T>, c: seq<T>)
    ensures a + b + c == a + (b + c)
  {
  }

  lemma {:induction false} LinearizesConcat(l: seq<Action>, blocks: seq<Block>, m: seq<Action>, more: seq<Block>)
    requires Linearizes(l, blocks) && Linearizes(m, more)
    ensures Linearizes(l + m, blocks + more)
    decreases |more|
  {
    hide Performs;
    if more == [] {
      assert l + m == l && blocks + more == blocks;
    } else {
      var before, during := LinearizesEnds(m, more);
      LinearizesConcat(l, blocks, before, Init(more));
      LinearizesSnoc(l + before, blocks + Init(more), during, Last(more));
      Associates(l, before, during);
      Associates(blocks, Init(more), [Last(more)]);
      assert Init(more) + [Last(more)] == more;
    }
  }

  lemma RealizesConcat(l: seq<Action>, blocks: seq<Block>, m: seq<Action>, more: seq<Block>)
    requires Realizes(l, blocks) && Realizes(m, more)
    ensures Realizes(l + m, blocks + more)
  {
    LinearizesConcat(l, blocks, m, more);
  }

  /** The members of a fork one after the other. */
  function InOrder(block: Block): seq<Action> {
    match block
    case Solo(actions) => actions
    case Fork(members) => Flatten(members)
  }

  /** The run with no interleaving at all: every group's members in the order they were given. */
  function Sequential(blocks: seq<Block>): seq<Action> {
    if blocks == [] then [] else Sequential(Init(blocks)) + InOrder(Last(blocks))
  }

  lemma {:induction false} SequentialConcat(blocks: seq<Block>, more: seq<Block>)
    ensures Sequential(blocks + more) == Sequential(blocks) + Sequential(more)
    decreases |more|
  {
    hide InOrder;
    if more == [] {
      assert blocks + more == blocks;
    } else {
      SequentialConcat(blocks, Init(more));
      assert Init(blocks + more) == blocks + Init(more) && Last(blocks + more) == Last(more);
    }
  }

  ghost predicate NoneOwns(members: seq<seq<Action>>, key: Key) {
    forall j | 0 <= j < |members| :: Avoids(members[j], key)
  }

  /** The key is at most one member's business. */
  ghost predicate AtMostOneOwns(members: seq<seq<Action>>, key: Key) {
    NoneOwns(members, key) || exists k: nat :: Owns(members, k, key)
  }

  ghost predicate Separate(block: Block) {
    block.Fork? ==> forall key :: AtMostOneOwns(block.members, key)
  }

  ghost predicate AllSeparate(blocks: seq<Block>) {
    forall i | 0 <= i < |blocks| :: Separate(blocks[i])
  }

  lemma BlockProjects(l: seq<Action>, block: Block, key: Key)
    requires Performs(l, block) && Separate(block)
    ensures Project(l, key) == Project(InOrder(block), key)
  {
    if block.Fork? {
      var members := block.members;
      assert AtMostOneOwns(members, key);
      if NoneOwns(members, key) {
        MergeAvoids(l, members, key);
        FlattenAvoids(members, key);
        ProjectNone(l, key);
        ProjectNone(Flatten(members), key);
      } else {
        var k: nat :| Owns(members, k, key);
        MergeProjects(l, members, k, key);
        FlattenProjects(members, k, key);
      }
    }
  }

  /** What happens to one step, group or store does not depend on the interleaving. */
  lemma {:induction false} LinearizationProjects(l: seq<Action>, blocks: seq<Block>, key: Key)
    requires Linearizes(l, blocks) && AllSeparate(blocks)
    ensures Project(l, key) == Project(Sequential(blocks), key)
    decreases |blocks|
  {
    if blocks != [] {
      var before, during := LinearizesEnds(l, blocks);
      LinearizationProjects(before, Init(blocks), key);
      BlockProjects(during, Last(blocks), key);
      ProjectConcat(before, during, key);
      ProjectConcat(Sequential(Init(blocks)), InOrder(Last(blocks)), key);
    }
  }

  lemma {:induction false} FlattenMerges(members: seq<seq<Action>>)
    ensures IsMerge(Flatten(members), members)
    decreases |members|
  {
    if members != [] {
      FlattenMerges(Init(members));
      MergeAppendsMember(Flatten(Init(members)), Init(members), Last(members));
      assert Init(members) + [Last(members)] == members;
    }
  }

  lemma {:induction false} MergeAppendsMember(l: seq<Action>, members: seq<seq<Action>>, last: seq<Action>)
    requires IsMerge(l, members)
    ensures IsMerge(l + last, members + [last])
    decreases |last|
  {
    hide IsMerge;
    if last == [] {
      assert l + last == l;
      MergeGainsEmpty(l, members);
    } else {
      MergeAppendsMember(l, members, Init(last));
      MergeGrows(l + Init(last), members + [Init(last)], |members|, Last(last));
      assert Init(last) + [Last(last)] == last;
      assert l + Init(last) + [Last(last)] == l + last;
      assert (members + [Init(last)])[|members| := last] == members + [last];
    }
  }

  lemma {:induction false} MergeGainsEmpty(l: seq<Action>, members: seq<seq<Action>>)
    requires IsMerge(l, members)
    ensures IsMerge(l, members + [[]])
    decreases |l|
  {
    if l != [] {
      var k: nat :| EndsWith(l, members, k) && IsMerge(Init(l), DropLast(members, k));
      MergeGainsEmpty(Init(l), DropLast(members, k));
      assert DropLast(members + [[]], k) == DropLast(members, k) + [[]];
      assert EndsWith(l, members + [[]], k);
    }
  }

  /** No interleaving at all is one of the interleavings. */
  lemma {:induction false} SequentialLinearizes(blocks: seq<Block>)
    ensures Linearizes(Sequential(blocks), blocks)
    decreases |blocks|
  {
    hide IsMerge, Flatten;
    if blocks != [] {
      SequentialLinearizes(Init(blocks));
      if Last(blocks).Fork? { FlattenMerges(Last(blocks).members); }
      LinearizesSnoc(Sequential(Init(blocks)), Init(blocks), InOrder(Last(blocks)), Last(blocks));
      assert Init(blocks) + [Last(blocks)] == blocks;
    }
  }
}
