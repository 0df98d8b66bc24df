/** The execution graph: the tree built from a journal, and the order of its leaves. */
module ExecutionGraphs {
  import opened Wrappers
  import opened Values
  import opened Runtime
  import opened Numerals
  import opened Journals

  datatype NodeKind = RootNode | GroupNode | StepNode

  datatype GraphNode = GraphNode(kind: NodeKind, title: string, status: Option<bool>, children: seq<GraphNode>)

  function LeafOf(r: StepRecord): GraphNode {
    GraphNode(StepNode, r.tool, r.status, [])
  }

  function LeavesOf(rs: seq<StepRecord>): (leaves: seq<GraphNode>)
    ensures |leaves| == |rs|
  {
    seq(|rs|, i requires 0 <= i < |rs| => LeafOf(rs[i]))
  }

  function GroupLabel(g: GroupRecord): string {
    (if g.consensus then "consensus" else "parallel") + ":group-" + Numerals.Digits(g.gid)
  }

  // ---------------------------------------------------------------- sorting by id

  function Insert(r: StepRecord, s: seq<StepRecord>): (t: seq<StepRecord>)
    ensures |t| == |s| + 1
  {
    if s == [] then [r] else if s[|s| - 1].id <= r.id then s + [r] else Insert(r, s[..|s| - 1]) + [s[|s| - 1]]
  }

  /** sorted(steps, key=id), stable. */
  function SortById(s: seq<StepRecord>): (t: seq<StepRecord>)
    ensures |t| == |s|
  {
    if s == [] then [] else Insert(s[|s| - 1], SortById(s[..|s| - 1]))
  }

  predicate Increasing(s: seq<StepRecord>) {
    forall i, j | 0 <= i < j < |s| :: s[i].id <= s[j].id
  }

  lemma {:induction false} InsertElements(r: StepRecord, s: seq<StepRecord>)
    ensures forall x :: x in Insert(r, s) <==> x == r || x in s
    decreases |s|
  {
    if s != [] && s[|s| - 1].id > r.id {
      InsertElements(r, s[..|s| - 1]);
      assert s == s[..|s| - 1] + [s[|s| - 1]];
    }
  }

  lemma {:induction false} InsertIncreasing(r: StepRecord, s: seq<StepRecord>)
    requires Increasing(s)
    ensures Increasing(Insert(r, s))
    decreases |s|
  {
    if s != [] && s[|s| - 1].id > r.id {
      var init, last := s[..|s| - 1], s[|s| - 1];
      InsertIncreasing(r, init);
      InsertElements(r, init);
      var t := Insert(r, init);
      forall i | 0 <= i < |t| ensures t[i].id <= last.id { assert t[i] in t; }
    }
  }

  lemma {:induction false} SortElements(s: seq<StepRecord>)
    ensures Increasing(SortById(s)) && forall x :: x in SortById(s) <==> x in s
    decreases |s|
  {
    if s != [] {
      var init, last := s[..|s| - 1], s[|s| - 1];
      SortElements(init);
      InsertIncreasing(last, SortById(init));
      InsertElements(last, SortById(init));
      assert s == init + [last];
    }
  }

  // ---------------------------------------------------------------- one group's members

  function MembersOf(s: seq<StepRecord>, g: GroupId): seq<StepRecord> {
    if s == [] then [] else MembersOf(s[..|s| - 1], g) + if s[|s| - 1].group == Some(g) then [s[|s| - 1]] else []
  }

  lemma MembersSnoc(s: seq<StepRecord>, r: StepRecord, g: GroupId)
    ensures MembersOf(s + [r], g) == MembersOf(s, g) + if r.group == Some(g) then [r] else []
  {
    assert (s + [r])[..|s|] == s;
  }

  lemma {:induction false} MembersElements(s: seq<StepRecord>, g: GroupId)
    ensures forall x :: x in MembersOf(s, g) <==> x in s && x.group == Some(g)
    decreases |s|
  {
    if s != [] {
      MembersElements(s[..|s| - 1], g);
      assert s == s[..|s| - 1] + [s[|s| - 1]];
    }
  }

  lemma {:induction false} MembersOfInsert(r: StepRecord, s: seq<StepRecord>, g: GroupId)
    requires Increasing(s)
    ensures MembersOf(Insert(r, s), g) == if r.group == Some(g) then Insert(r, MembersOf(s, g)) else MembersOf(s, g)
    decreases |s|
  {
    hide Increasing;
    if s == [] || s[|s| - 1].id <= r.id {
      AppendMember(r, s, g);
    } else {
      IncreasingInit(s);
      MembersOfInsert(r, s[..|s| - 1], g);
      InsertAmong(r, s[..|s| - 1], s[|s| - 1], g);
      assert s[..|s| - 1] + [s[|s| - 1]] == s;
    }
  }

  lemma IncreasingInit(s: seq<StepRecord>)
    requires Increasing(s) && s != []
    ensures Increasing(s[..|s| - 1])
  {
  }

  lemma AppendMember(r: StepRecord, s: seq<StepRecord>, g: GroupId)
    requires Increasing(s) && (s == [] || s[|s| - 1].id <= r.id)
    ensures MembersOf(Insert(r, s), g) == if r.group == Some(g) then Insert(r, MembersOf(s, g)) else MembersOf(s, g)
  {
    assert Insert(r, s) == s + [r];
    MembersSnoc(s, r, g);
    InsertLast(r, MembersOf(s, g), s, g);
  }

  lemma InsertAmong(r: StepRecord, init: seq<StepRecord>, last: StepRecord, g: GroupId)
    requires last.id > r.id
    requires MembersOf(Insert(r, init), g) == if r.group == Some(g) then Insert(r, MembersOf(init, g)) else MembersOf(init, g)
    ensures MembersOf(Insert(r, init) + [last], g) ==
      if r.group == Some(g) then Insert(r, MembersOf(init + [last], g)) else MembersOf(init + [last], g)
  {
    MembersSnoc(Insert(r, init), last, g);
    MembersSnoc(init, last, g);
    var ms := MembersOf(init, g);
    if last.group == Some(g) { InsertBefore(r, ms, last); }
    assert ms + [] == ms && Insert(r, ms) + [] == Insert(r, ms);
  }

  lemma InsertBefore(r: StepRecord, ms: seq<StepRecord>, last: StepRecord)
    requires last.id > r.id
    ensures Insert(r, ms + [last]) == Insert(r, ms) + [last]
  {
    assert (ms + [last])[..|ms|] == ms;
  }

  lemma SortSnoc(s: seq<StepRecord>, r: StepRecord)
    ensures SortById(s + [r]) == Insert(r, SortById(s))
  {
    assert (s + [r])[..|s|] == s;
  }

  lemma InsertLast(r: StepRecord, ms: seq<StepRecord>, s: seq<StepRecord>, g: GroupId)
    requires Increasing(s) && (s == [] || s[|s| - 1].id <= r.id) && ms == MembersOf(s, g)
    ensures Insert(r, ms) == ms + [r]
  {
    MembersElements(s, g);
    if ms != [] { assert ms[|ms| - 1] in s; }
  }

  predicate SortsAlike(s: seq<StepRecord>, g: GroupId) {
    SortById(MembersOf(s, g)) == MembersOf(SortById(s), g)
  }

  lemma SortMembersStep(init: seq<StepRecord>, last: StepRecord, g: GroupId)
    requires SortsAlike(init, g)
    ensures SortsAlike(init + [last], g)
  {
    var sorted, ms := SortById(init), MembersOf(init, g);
    SortElements(init);
    MembersOfInsert(last, sorted, g);
    MembersSnoc(init, last, g);
    SortSnoc(init, last);
    if last.group == Some(g) { SortSnoc(ms, last); } else { assert ms + [] == ms; }
  }

  lemma SortsNothing(g: GroupId)
    ensures SortsAlike([], g)
  {
  }

  /** Sorting a group's members is picking them from the sorted list. */
  lemma {:induction false} SortMembers(s: seq<StepRecord>, g: GroupId)
    ensures SortsAlike(s, g)
    decreases |s|
  {
    hide SortsAlike;
    if s == [] {
      SortsNothing(g);
    } else {
      SortMembers(s[..|s| - 1], g);
      SortMembersStep(s[..|s| - 1], s[|s| - 1], g);
      assert s[..|s| - 1] + [s[|s| - 1]] == s;
    }
  }

  // ---------------------------------------------------------------- the tree

  ghost predicate GroupsKnown(j: Journal) {
    Consistent(j) && forall i | 0 <= i < |j.steps| && j.steps[i].group.Some? :: j.steps[i].group.value in j.groupAt
  }

  function GroupOf(j: Journal, sorted: seq<StepRecord>, g: GroupId): GraphNode
    requires Consistent(j) && g in j.groupAt
  {
    var group := j.groups[j.groupAt[g]];
    GraphNode(GroupNode, GroupLabel(group), group.status, LeavesOf(MembersOf(sorted, g)))
  }

  predicate AllKnown(j: Journal, sorted: seq<StepRecord>) {
    forall i | 0 <= i < |sorted| && sorted[i].group.Some? :: sorted[i].group.value in j.groupAt
  }

  /** What the k-th step adds to the root: itself, its group if that was not seen yet, or nothing. */
  function ChildAt(j: Journal, sorted: seq<StepRecord>, k: nat, seen: set<GroupId>): seq<GraphNode>
    requires Consistent(j) && AllKnown(j, sorted) && k < |sorted|
  {
    if sorted[k].group.None? then [LeafOf(sorted[k])]
    else if sorted[k].group.value in seen then []
    else [GroupOf(j, sorted, sorted[k].group.value)]
  }

  function SeenAfter(sorted: seq<StepRecord>, k: nat, seen: set<GroupId>): set<GroupId>
    requires k < |sorted|
  {
    if sorted[k].group.Some? then seen + {sorted[k].group.value} else seen
  }

  /** The children of the root, from the k-th step on: a group stands where its first member does. */
  function ChildrenFrom(j: Journal, sorted: seq<StepRecord>, k: nat, seen: set<GroupId>): seq<GraphNode>
    requires Consistent(j) && AllKnown(j, sorted) && k <= |sorted|
    decreases |sorted| - k
  {
    if k == |sorted| then [] else ChildAt(j, sorted, k, seen) + ChildrenFrom(j, sorted, k + 1, SeenAfter(sorted, k, seen))
  }

  function Tree(j: Journal, name: string): GraphNode
    requires GroupsKnown(j)
  {
    SortedKnown(j);
    GraphNode(RootNode, name, j.status, ChildrenFrom(j, SortById(j.steps), 0, {}))
  }

  lemma SortedKnown(j: Journal)
    requires GroupsKnown(j)
    ensures AllKnown(j, SortById(j.steps))
  {
    SortElements(j.steps);
    var sorted := SortById(j.steps);
    forall i | 0 <= i < |sorted| && sorted[i].group.Some? ensures sorted[i].group.value in j.groupAt {
      assert sorted[i] in j.steps;
    }
  }

  // ---------------------------------------------------------------- the code

  /** Each group's members in the order of the journal. */
  ghost predicate Grouped(byGroup: map<GroupId, seq<StepRecord>>, steps: seq<StepRecord>) {
    forall g :: (g in byGroup <==> MembersOf(steps, g) != []) && (g in byGroup ==> byGroup[g] == MembersOf(steps, g))
  }

  lemma GroupedAt(byGroup: map<GroupId, seq<StepRecord>>, steps: seq<StepRecord>, step: StepRecord, g: GroupId)
    requires Grouped(byGroup, steps) && step in steps && step.group == Some(g)
    ensures g in byGroup && byGroup[g] == MembersOf(steps, g)
  {
    MembersElements(steps, g);
    assert step in MembersOf(steps, g);
  }

  /** steps_by_group */
  method ByGroup(steps: seq<StepRecord>) returns (byGroup: map<GroupId, seq<StepRecord>>)
    ensures Grouped(byGroup, steps)
  {
    byGroup := map[];
    var i := 0;
    while i < |steps|
      invariant 0 <= i <= |steps|
      invariant forall g :: (g in byGroup <==> MembersOf(steps[..i], g) != []) && (g in byGroup ==> byGroup[g] == MembersOf(steps[..i], g))
    {
      assert steps[..i + 1] == steps[..i] + [steps[i]];
      forall g { MembersSnoc(steps[..i], steps[i], g); }
      if steps[i].group.Some? {
        var g := steps[i].group.value;
        byGroup := byGroup[g := (if g in byGroup then byGroup[g] else []) + [steps[i]]];
      }
      i := i + 1;
    }
    assert steps[..i] == steps;
  }

  method Leaves(members: seq<StepRecord>) returns (leaves: seq<GraphNode>)
    ensures leaves == LeavesOf(members)
  {
    leaves := [];
    while |leaves| < |members|
      invariant |leaves| <= |members| && leaves == LeavesOf(members)[..|leaves|]
    {
      leaves := leaves + [LeafOf(members[|leaves|])];
    }
  }

  /** build_execution_graph(journal) */
  method BuildExecutionGraph(j: Journal, name: string) returns (root: GraphNode)
    requires GroupsKnown(j)
    ensures root == Tree(j, name)
  {
    hide GroupLabel, ChildAt, SeenAfter, Grouped;
    var byGroup := ByGroup(j.steps);
    var sorted := SortById(j.steps);
    SortedKnown(j);
    var children: seq<GraphNode> := [];
    var seen: set<GroupId> := {};
    var k := 0;
    while k < |sorted|
      invariant 0 <= k <= |sorted|
      invariant ChildrenFrom(j, sorted, 0, {}) == children + ChildrenFrom(j, sorted, k, seen)
    {
      var child, seen' := AddChild(j, byGroup, sorted, k, seen);
      Regroup(children, child, ChildrenFrom(j, sorted, k + 1, seen'));
      children := children + child;
      seen := seen';
      k := k + 1;
    }
    root := GraphNode(RootNode, name, j.status, children);
  }

  lemma Regroup<T>(a: seq<T>, b: seq<T>, c: seq<T>)
    ensures a + (b + c) == a + b + c
  {
  }

  /** The body of the loop. */
  method AddChild(j: Journal, byGroup: map<GroupId, seq<StepRecord>>, sorted: seq<StepRecord>, k: nat, seen: set<GroupId>)
    returns (child: seq<GraphNode>, seen': set<GroupId>)
    requires GroupsKnown(j) && sorted == SortById(j.steps) && AllKnown(j, sorted) && k < |sorted|
    requires Grouped(byGroup, j.steps)
    ensures child == ChildAt(j, sorted, k, seen) && seen' == SeenAfter(sorted, k, seen)
  {
    hide Grouped, GroupLabel;
    var step := sorted[k];
    if step.group.None? { return [LeafOf(step)], seen; }
    var g := step.group.value;
    if g in seen {
      assert seen + {g} == seen;
      return [], seen;
    }
    SortElements(j.steps);
    assert step in j.steps;
    GroupedAt(byGroup, j.steps, step, g);
    SortMembers(j.steps, g);
    var leaves := Leaves(SortById(byGroup[g]));
    var group := j.groups[j.groupAt[g]];
    return [GraphNode(GroupNode, GroupLabel(group), group.status, leaves)], seen + {g};
  }

  // ---------------------------------------------------------------- the leaves

  /** The leaves under a list of children of the root, left to right. */
  function LeafList(children: seq<GraphNode>): seq<GraphNode> {
    if children == [] then []
    else (if children[0].kind == GroupNode then children[0].children else [children[0]]) + LeafList(children[1..])
  }

  /** Steps of one group stand next to each other. */
  ghost predicate Contiguous(s: seq<StepRecord>) {
    forall a, b, c | 0 <= a < b < c < |s| && s[a].group.Some? && s[a].group == s[c].group :: s[b].group == s[a].group
  }

  /** The steps from k on that belong to no group in `seen`. */
  function Unseen(s: seq<StepRecord>, k: nat, seen: set<GroupId>): seq<StepRecord>
    requires k <= |s|
    decreases |s| - k
  {
    if k == |s| then []
    else (if s[k].group.Some? && s[k].group.value in seen then [] else [s[k]]) + Unseen(s, k + 1, seen)
  }

  /** Every group met before k was seen. */
  predicate SeenBefore(s: seq<StepRecord>, k: nat, seen: set<GroupId>) {
    forall i | 0 <= i < k && i < |s| && s[i].group.Some? :: s[i].group.value in seen
  }

  /** The end of the run of g's members that starts at k. */
  function EndOf(s: seq<StepRecord>, k: nat, g: GroupId): (e: nat)
    requires k <= |s|
    ensures k <= e <= |s| && (forall i | k <= i < e :: s[i].group == Some(g)) && (e < |s| ==> s[e].group != Some(g))
    decreases |s| - k
  {
    if k < |s| && s[k].group == Some(g) then EndOf(s, k + 1, g) else k
  }

  lemma UnseenHere(s: seq<StepRecord>, k: nat, seen: set<GroupId>)
    requires k < |s|
    ensures Unseen(s, k, seen) ==
      if s[k].group.Some? && s[k].group.value in seen then Unseen(s, k + 1, seen) else [s[k]] + Unseen(s, k + 1, seen)
  {
    assert [] + Unseen(s, k + 1, seen) == Unseen(s, k + 1, seen);
  }

  predicate AllOf(s: seq<StepRecord>, k: nat, e: nat, g: GroupId) {
    k <= e <= |s| && forall i | k <= i < e :: s[i].group == Some(g)
  }

  lemma AllOfNext(s: seq<StepRecord>, k: nat, e: nat, g: GroupId)
    requires AllOf(s, k, e, g) && k < e
    ensures AllOf(s, k + 1, e, g) && s[k].group == Some(g) && s[k..e] == [s[k]] + s[k + 1..e]
  {
  }

  lemma Regroup3(r: StepRecord, a: seq<StepRecord>, b: seq<StepRecord>)
    ensures [r] + (a + b) == [r] + a + b
  {
  }

  lemma {:induction false} UnseenRun(s: seq<StepRecord>, k: nat, e: nat, seen: set<GroupId>, g: GroupId)
    requires AllOf(s, k, e, g) && g !in seen
    ensures Unseen(s, k, seen) == s[k..e] + Unseen(s, e, seen)
    decreases e - k
  {
    if k < e {
      AllOfNext(s, k, e, g);
      hide AllOf;
      UnseenRun(s, k + 1, e, seen, g);
      UnseenHere(s, k, seen);
      Regroup3(s[k], s[k + 1..e], Unseen(s, e, seen));
    } else {
      assert s[k..e] == [];
      assert [] + Unseen(s, e, seen) == Unseen(s, e, seen);
    }
  }

  lemma {:induction false} SeenRun(s: seq<StepRecord>, k: nat, e: nat, seen: set<GroupId>, g: GroupId)
    requires AllOf(s, k, e, g) && g in seen
    ensures Unseen(s, k, seen) == Unseen(s, e, seen)
    decreases e - k
  {
    if k < e {
      AllOfNext(s, k, e, g);
      hide AllOf;
      SeenRun(s, k + 1, e, seen, g);
      UnseenHere(s, k, seen);
    }
  }

  lemma {:induction false} UnseenWithout(s: seq<StepRecord>, e: nat, seen: set<GroupId>, g: GroupId)
    requires e <= |s| && forall i | e <= i < |s| :: s[i].group != Some(g)
    ensures Unseen(s, e, seen + {g}) == Unseen(s, e, seen)
    decreases |s| - e
  {
    if e < |s| { UnseenWithout(s, e + 1, seen, g); }
  }

  lemma {:induction false} MembersInRun(s: seq<StepRecord>, k: nat, e: nat, n: nat, g: GroupId)
    requires k <= e <= n <= |s|
    requires forall i | 0 <= i < n :: s[i].group == Some(g) <==> k <= i < e
    ensures MembersOf(s[..n], g) == s[k..e]
    decreases n
  {
    if n == 0 {
      assert s[k..e] == [];
    } else if n > e {
      MembersInRun(s, k, e, n - 1, g);
      assert s[..n] == s[..n - 1] + [s[n - 1]];
      MembersSnoc(s[..n - 1], s[n - 1], g);
    } else if k < e {
      MembersBefore(s, k, n, g);
    } else {
      NoMembers(s, n, g);
    }
  }

  lemma {:induction false} MembersBefore(s: seq<StepRecord>, k: nat, n: nat, g: GroupId)
    requires k <= n <= |s| && forall i | 0 <= i < n :: s[i].group == Some(g) <==> k <= i
    ensures MembersOf(s[..n], g) == s[k..n]
    decreases n
  {
    if k == n {
      NoMembers(s, n, g);
    } else {
      MembersBefore(s, k, n - 1, g);
      assert s[..n] == s[..n - 1] + [s[n - 1]];
      MembersSnoc(s[..n - 1], s[n - 1], g);
      assert s[k..n] == s[k..n - 1] + [s[n - 1]];
    }
  }

  lemma {:induction false} NoMembers(s: seq<StepRecord>, n: nat, g: GroupId)
    requires n <= |s| && forall i | 0 <= i < n :: s[i].group != Some(g)
    ensures MembersOf(s[..n], g) == []
    decreases n
  {
    if n > 0 {
      NoMembers(s, n - 1, g);
      assert s[..n] == s[..n - 1] + [s[n - 1]];
      MembersSnoc(s[..n - 1], s[n - 1], g);
    }
  }

  lemma AfterRun(s: seq<StepRecord>, k: nat, e: nat, i: nat, g: GroupId)
    requires Contiguous(s) && k < e <= i < |s| && s[k].group == Some(g) && s[e].group != Some(g)
    ensures s[i].group != Some(g)
  {
  }

  /** A group met first at k has exactly the members that follow at k. */
  lemma RunIsGroup(s: seq<StepRecord>, k: nat, seen: set<GroupId>, g: GroupId)
    requires Contiguous(s) && SeenBefore(s, k, seen) && k < |s| && s[k].group == Some(g) && g !in seen
    ensures MembersOf(s, g) == s[k..EndOf(s, k, g)]
    ensures forall i | EndOf(s, k, g) <= i < |s| :: s[i].group != Some(g)
  {
    var e := EndOf(s, k, g);
    forall i | e <= i < |s| ensures s[i].group != Some(g) { AfterRun(s, k, e, i, g); }
    assert s[..|s|] == s;
    MembersInRun(s, k, e, |s|, g);
  }

  lemma LeavesConcat(a: seq<StepRecord>, b: seq<StepRecord>)
    ensures LeavesOf(a + b) == LeavesOf(a) + LeavesOf(b)
  {
  }

  lemma LeafListCons(head: GraphNode, rest: seq<GraphNode>)
    ensures LeafList([head] + rest) == (if head.kind == GroupNode then head.children else [head]) + LeafList(rest)
  {
    assert ([head] + rest)[1..] == rest;
  }

  /** The leaves from k on are the steps from k on whose groups were not seen. */
  predicate LeavesFrom(j: Journal, s: seq<StepRecord>, k: nat, seen: set<GroupId>)
    requires Consistent(j) && AllKnown(j, s) && k <= |s|
  {
    LeafList(ChildrenFrom(j, s, k, seen)) == LeavesOf(Unseen(s, k, seen))
  }

  lemma LoneStep(j: Journal, s: seq<StepRecord>, k: nat, seen: set<GroupId>)
    requires Consistent(j) && AllKnown(j, s) && k < |s| && s[k].group.None? && LeavesFrom(j, s, k + 1, seen)
    ensures LeavesFrom(j, s, k, seen)
  {
    LeafListCons(LeafOf(s[k]), ChildrenFrom(j, s, k + 1, seen));
    LeavesConcat([s[k]], Unseen(s, k + 1, seen));
  }

  lemma SeenStep(j: Journal, s: seq<StepRecord>, k: nat, seen: set<GroupId>, g: GroupId)
    requires Consistent(j) && AllKnown(j, s) && k < |s| && s[k].group == Some(g) && g in seen && LeavesFrom(j, s, k + 1, seen)
    ensures LeavesFrom(j, s, k, seen)
  {
    assert SeenAfter(s, k, seen) == seen;
    assert [] + Unseen(s, k + 1, seen) == Unseen(s, k + 1, seen);
    assert [] + ChildrenFrom(j, s, k + 1, seen) == ChildrenFrom(j, s, k + 1, seen);
  }

  lemma NewGroup(j: Journal, s: seq<StepRecord>, k: nat, seen: set<GroupId>, g: GroupId)
    requires Consistent(j) && AllKnown(j, s) && k < |s| && s[k].group == Some(g) && g !in seen
    requires Contiguous(s) && SeenBefore(s, k, seen) && LeavesFrom(j, s, k + 1, seen + {g})
    ensures LeavesFrom(j, s, k, seen)
  {
    hide Contiguous, SeenBefore, GroupLabel;
    var rest := ChildrenFrom(j, s, k + 1, seen + {g});
    assert ChildrenFrom(j, s, k, seen) == [GroupOf(j, s, g)] + rest;
    LeafListCons(GroupOf(j, s, g), rest);
    GroupFirst(s, k, seen, g);
    LeavesConcat(MembersOf(s, g), Unseen(s, k + 1, seen + {g}));
  }

  lemma NoLeaves(j: Journal, s: seq<StepRecord>, seen: set<GroupId>)
    requires Consistent(j) && AllKnown(j, s)
    ensures LeavesFrom(j, s, |s|, seen)
  {
  }

  lemma {:induction false} LeavesInOrderFrom(j: Journal, s: seq<StepRecord>, k: nat, seen: set<GroupId>)
    requires Consistent(j) && AllKnown(j, s) && k <= |s| && Contiguous(s) && SeenBefore(s, k, seen)
    ensures LeavesFrom(j, s, k, seen)
    decreases |s| - k
  {
    hide Contiguous, LeavesFrom, AllKnown;
    if k == |s| {
      NoLeaves(j, s, seen);
    } else {
      if s[k].group.None? {
        SeenNext(s, k, seen);
        LeavesInOrderFrom(j, s, k + 1, seen);
        LoneStep(j, s, k, seen);
      } else {
        var g := s[k].group.value;
        if g in seen {
          SeenNext(s, k, seen);
          LeavesInOrderFrom(j, s, k + 1, seen);
          SeenStep(j, s, k, seen, g);
        } else {
          SeenNext(s, k, seen + {g});
          LeavesInOrderFrom(j, s, k + 1, seen + {g});
          NewGroup(j, s, k, seen, g);
        }
      }
    }
  }

  lemma SeenNext(s: seq<StepRecord>, k: nat, seen: set<GroupId>)
    requires k < |s| && (s[k].group.Some? ==> s[k].group.value in seen)
    requires forall i | 0 <= i < k && s[i].group.Some? :: s[i].group.value in seen
    ensures SeenBefore(s, k + 1, seen)
  {
  }

  /** What a group not seen yet contributes, and what is left after it. */
  lemma GroupFirst(s: seq<StepRecord>, k: nat, seen: set<GroupId>, g: GroupId)
    requires Contiguous(s) && SeenBefore(s, k, seen) && k < |s| && s[k].group == Some(g) && g !in seen
    ensures Unseen(s, k, seen) == MembersOf(s, g) + Unseen(s, k + 1, seen + {g})
  {
    hide Contiguous;
    var e := EndOf(s, k, g);
    RunIsGroup(s, k, seen, g);
    UnseenRun(s, k, e, seen, g);
    SeenRun(s, k + 1, e, seen + {g}, g);
    UnseenWithout(s, e, seen, g);
  }

  lemma {:induction false} NothingSeen(s: seq<StepRecord>, k: nat)
    requires k <= |s|
    ensures Unseen(s, k, {}) == s[k..]
    decreases |s| - k
  {
    if k < |s| {
      NothingSeen(s, k + 1);
      assert s[k..] == [s[k]] + s[k + 1..];
    }
  }

  /** Where groups are contiguous, the leaves read left to right are the steps in the order of their ids. */
  lemma LeavesInOrder(j: Journal, name: string)
    requires GroupsKnown(j) && Contiguous(SortById(j.steps))
    ensures LeafList(Tree(j, name).children) == LeavesOf(SortById(j.steps))
    ensures var leaves, sorted := LeafList(Tree(j, name).children), SortById(j.steps);
      |leaves| == |sorted| && forall k | 0 <= k < |sorted| :: leaves[k] == GraphNode(StepNode, sorted[k].tool, sorted[k].status, [])
  {
    SortedKnown(j);
    var s := SortById(j.steps);
    LeavesInOrderFrom(j, s, 0, {});
    NothingSeen(s, 0);
    assert s[0..] == s;
  }

  // ---------------------------------------------------------------- what the nodes show

  /** A step's node: its tool, how it ended, and nothing below it. */
  predicate ShowsStep(c: GraphNode, r: StepRecord) {
    c == GraphNode(StepNode, r.tool, r.status, [])
  }

  /** A group's node: its kind and number, how it ended, and its steps by id. */
  predicate ShowsGroup(j: Journal, c: GraphNode, g: GroupId)
    requires Consistent(j)
  {
    && g in j.groupAt
    && var r, members := j.groups[j.groupAt[g]], MembersOf(SortById(j.steps), g);
       && c.kind == GroupNode && c.status == r.status
       && c.title == (if r.consensus then "consensus" else "parallel") + ":group-" + Numerals.Digits(g)
       && |c.children| == |members| && forall k | 0 <= k < |members| :: ShowsStep(c.children[k], members[k])
  }

  /** A child of the root is a step of no group, or a group. */
  ghost predicate ShowsChild(j: Journal, c: GraphNode)
    requires Consistent(j)
  {
    (exists i | 0 <= i < |j.steps| :: j.steps[i].group.None? && ShowsStep(c, j.steps[i])) || (exists g :: ShowsGroup(j, c, g))
  }

  lemma ChildShows(j: Journal, k: nat, seen: set<GroupId>)
    requires GroupsKnown(j) && AllKnown(j, SortById(j.steps)) && k < |j.steps|
    ensures forall c | c in ChildAt(j, SortById(j.steps), k, seen) :: ShowsChild(j, c)
  {
    hide SortById;
    var sorted := SortById(j.steps);
    SortElements(j.steps);
    assert sorted[k] in j.steps;
    if sorted[k].group.None? {
      var i :| 0 <= i < |j.steps| && j.steps[i] == sorted[k];
      assert ShowsStep(LeafOf(sorted[k]), j.steps[i]);
    } else {
      var g := sorted[k].group.value;
      assert ShowsGroup(j, GroupOf(j, sorted, g), g);
    }
  }

  lemma {:induction false} ChildrenShow(j: Journal, k: nat, seen: set<GroupId>)
    requires GroupsKnown(j) && AllKnown(j, SortById(j.steps)) && k <= |j.steps|
    ensures forall c | c in ChildrenFrom(j, SortById(j.steps), k, seen) :: ShowsChild(j, c)
    decreases |j.steps| - k
  {
    hide SortById, ShowsChild, ChildAt;
    if k < |j.steps| {
      ChildShows(j, k, seen);
      ChildrenShow(j, k + 1, SeenAfter(SortById(j.steps), k, seen));
    }
  }

  /** Every node under the root is a step outside the groups or a group with its own steps in the order of their ids. */
  lemma TreeShows(j: Journal, name: string)
    requires GroupsKnown(j)
    ensures Tree(j, name).kind == RootNode && Tree(j, name).title == name && Tree(j, name).status == j.status
    ensures forall c | c in Tree(j, name).children :: ShowsChild(j, c)
  {
    hide ShowsChild;
    SortedKnown(j);
    ChildrenShow(j, 0, {});
  }

  /** A group's members are its own steps, in the order of their ids. */
  lemma MembersSorted(steps: seq<StepRecord>, g: GroupId)
    ensures var members := MembersOf(SortById(steps), g);
      Increasing(members) && forall r :: r in members <==> r in steps && r.group == Some(g)
  {
    SortMembers(steps, g);
    SortElements(MembersOf(steps, g));
    MembersElements(steps, g);
  }
}
