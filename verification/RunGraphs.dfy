/**
 What is left of a run when it is over, whatever order its threads were interleaved in: a journal that
 never missed a record, its steps 1, 2, ..., n, and an execution graph whose leaves are those steps in
 that order.
 */
module RunGraphs {
  import opened Wrappers
  import opened Values
  import opened Runtime
  import opened Merges
  import opened Blocks
  import opened Workers
  import opened Plans
  import opened GroupLaws
  import opened StepLaws
  import opened RunLaws
  import opened Outcomes
  import opened Journals
  import opened Jobs
  import opened GateLaws
  import opened ExecutionGraphs
  import opened GroupTags

  // ---------------------------------------------------------------- a step's record

  lemma {:induction false} KeptView(l: seq<Action>, more: seq<Action>)
    requires ViewOf(l).Some?
    requires forall i | 0 <= i < |more| && more[i].Emit? :: !more[i].event.StepStarted?
    ensures ViewOf(l + more).Some? && ViewOf(l + more).value.id == ViewOf(l).value.id && ViewOf(l + more).value.group == ViewOf(l).value.group
    decreases |more|
  {
    if more == [] {
      assert l + more == l;
    } else {
      KeptView(l, Init(more));
      ViewSnoc(l + Init(more), Last(more));
      assert l + Init(more) + [Last(more)] == l + more;
    }
  }

  lemma ShapedStarts(mine: seq<Action>, id: nat, ok: bool, plain: seq<Action>, pay: seq<Action>, i: nat)
    requires Shaped(mine, id, ok, plain, pay) && 0 < i < |mine| && mine[i].Emit?
    ensures !mine[i].event.StepStarted?
  {
    if i <= |plain| {
      assert mine[i] == plain[i - 1];
    } else if i < |mine| - 1 {
      assert mine[i] == pay[i - 1 - |plain|];
    }
  }

  /** Only the first of a whole step's actions starts it. */
  lemma StartsOnce(mine: seq<Action>, id: nat)
    requires WholeStep(mine, id)
    ensures |mine| >= 2 && IsStart(mine[0], id)
    ensures forall i | 0 < i < |mine| && mine[i].Emit? :: !mine[i].event.StepStarted?
    ensures exists ok :: IsFinish(Last(mine), id, ok)
  {
    hide IsStart, IsFinish, AllPlain, IsPayment;
    var ok := Whole(mine, id, true);
    var plain, pay :| Shaped(mine, id, ok, plain, pay);
    forall i: nat | 0 < i < |mine| && mine[i].Emit? ensures !mine[i].event.StepStarted? {
      ShapedStarts(mine, id, ok, plain, pay, i);
    }
    assert IsFinish(Last(mine), id, ok);
  }

  /** A whole step's record: its id, its group, and a status. */
  lemma WholeRecord(mine: seq<Action>, id: nat)
    requires WholeStep(mine, id)
    ensures var v := ViewOf(mine); v.Some? && v.value.id == id && v.value.group == mine[0].event.group && v.value.status.Some?
  {
    hide WholeStep, OnStep;
    StartsOnce(mine, id);
    ViewSnoc([], mine[0]);
    assert [] + [mine[0]] == [mine[0]];
    var middle := mine[1..|mine| - 1];
    KeptView([mine[0]], middle);
    assert [mine[0]] + middle == Init(mine);
    FinishedView(ViewOf(Init(mine)), Last(mine), id);
  }

  lemma FinishedView(v: Option<StepRecord>, a: Action, id: nat)
    requires v.Some? && exists ok :: IsFinish(a, id, ok)
    ensures var w := ViewStep(v, a); w.Some? && w.value.id == v.value.id && w.value.group == v.value.group && w.value.status.Some?
  {
  }

  // ---------------------------------------------------------------- the list of records

  function Ids(s: seq<StepRecord>): (ids: seq<int>)
    ensures |ids| == |s| && forall i | 0 <= i < |s| :: ids[i] >= 0
  {
    seq(|s|, i requires 0 <= i < |s| => s[i].id as int)
  }

  /** How often a trace starts the step. */
  function Starts(l: seq<Action>, id: nat): nat {
    if l == [] then 0 else Starts(Init(l), id) + if IsStart(Last(l), id) then 1 else 0
  }

  lemma IdsConcat(s: seq<StepRecord>, r: StepRecord)
    ensures Ids(s + [r]) == Ids(s) + [r.id]
  {
  }

  lemma StartStepIds(j: Journal, e: Event)
    requires Consistent(j) && e.StepStarted?
    ensures Ids(StartStep(j, e).steps) == Ids(j.steps) + [e.id]
    ensures StartStep(j, e).stepAt == j.stepAt[e.id := |j.steps|]
  {
    hide Ids;
    IdsConcat(j.steps, NewRecord(e));
  }

  lemma UpdateStepIds(j: Journal, e: Event)
    requires Consistent(j) && IsStepEvent(e)
    ensures Ids(UpdateStep(j, e).steps) == Ids(j.steps)
    ensures UpdateStep(j, e).stepAt == j.stepAt
  {
  }

  lemma OtherIds(j: Journal, e: Event)
    requires Consistent(j) && !IsStepEvent(e)
    ensures OnEvent(j, e).steps == j.steps && OnEvent(j, e).stepAt == j.stepAt
  {
  }

  lemma StepEventIds(j: Journal, e: Event)
    requires Consistent(j) && IsStepEvent(e)
    ensures Ids(OnEvent(j, e).steps) == Ids(j.steps) + if e.StepStarted? then [e.id] else []
    ensures OnEvent(j, e).stepAt == if e.StepStarted? then j.stepAt[e.id := |j.steps|] else j.stepAt
  {
    hide StartStep, UpdateStep, Ids;
    if e.StepStarted? { StartStepIds(j, e); } else { UpdateStepIds(j, e); }
    assert Ids(j.steps) + [] == Ids(j.steps);
  }

  lemma OnActionIds(j: Journal, a: Action)
    requires Consistent(j)
    ensures Ids(OnAction(j, a).steps) == Ids(j.steps) + if a.Emit? && a.event.StepStarted? then [a.event.id] else []
    ensures OnAction(j, a).stepAt == if a.Emit? && a.event.StepStarted? then j.stepAt[a.event.id := |j.steps|] else j.stepAt
  {
    hide OnEvent, Ids;
    if a.Emit? {
      if IsStepEvent(a.event) { StepEventIds(j, a.event); } else { OtherIds(j, a.event); }
    }
    assert Ids(j.steps) + [] == Ids(j.steps);
  }

  /** A record per start, findable by its id. */
  lemma {:induction false} StartedIds(l: seq<Action>, id: nat)
    ensures multiset(Ids(JournalOf(l).steps))[id] == Starts(l, id)
    ensures Starts(l, id) > 0 ==> id in JournalOf(l).stepAt
    decreases |l|
  {
    hide OnAction;
    if l != [] {
      StartedIds(Init(l), id);
      OnActionIds(JournalOf(Init(l)), Last(l));
    }
  }

  lemma {:induction false} StartsProjected(l: seq<Action>, id: nat)
    ensures Starts(l, id) == Starts(Project(l, OfStep(id)), id)
    decreases |l|
  {
    if l != [] {
      StartsProjected(Init(l), id);
      var before, a := Project(Init(l), OfStep(id)), Last(l);
      if KeyOf(a) == OfStep(id) {
        StartsSnoc(before, a, id);
      } else {
        assert Project(l, OfStep(id)) == before;
      }
    }
  }

  lemma StartsSnoc(l: seq<Action>, a: Action, id: nat)
    ensures Starts(l + [a], id) == Starts(l, id) + if IsStart(a, id) then 1 else 0
  {
    assert Init(l + [a]) == l;
  }

  lemma {:induction false} StartsInFront(mine: seq<Action>, id: nat, n: nat)
    requires 1 <= n <= |mine| && IsStart(mine[0], id)
    requires forall i | 0 < i < |mine| && mine[i].Emit? :: !mine[i].event.StepStarted?
    ensures Starts(mine[..n], id) == 1
    decreases n
  {
    var shorter := mine[..n - 1];
    StartsSnoc(shorter, mine[n - 1], id);
    assert mine[..n] == shorter + [mine[n - 1]];
    if n > 1 {
      StartsInFront(mine, id, n - 1);
    } else {
      assert shorter == [];
    }
  }

  /** In a trace of the whole steps 1..next - 1, exactly those are started, once each. */
  lemma StartsIn(l: seq<Action>, next: nat, id: nat)
    requires StepsIn(l, 1, next)
    ensures Starts(l, id) == if 1 <= id < next then 1 else 0
  {
    hide WholeStep;
    StartsProjected(l, id);
    var mine := Project(l, OfStep(id));
    if 1 <= id < next {
      StartsOnce(mine, id);
      StartsInFront(mine, id, |mine|);
      assert mine[..|mine|] == mine;
    }
  }

  // ---------------------------------------------------------------- sorted, they are 1, 2, ..., n

  predicate Rising(t: seq<int>) {
    forall i, j | 0 <= i < j < |t| :: t[i] <= t[j]
  }

  ghost predicate OneEach(t: seq<int>, next: nat) {
    forall x: int :: multiset(t)[x] == if 1 <= x < next then 1 else 0
  }

  lemma Occurs(t: seq<int>, k: nat)
    requires k < |t|
    ensures multiset(t)[t[k]] > 0
  {
    assert t[k] in multiset(t);
  }

  lemma {:induction false} RisingIsCounting(t: seq<int>, next: nat)
    requires next >= 1 && Rising(t) && OneEach(t, next)
    ensures |t| == next - 1 && forall k | 0 <= k < |t| :: t[k] == k + 1
    decreases next
  {
    if next == 1 {
      if t != [] { Occurs(t, 0); }
    } else {
      var top := next - 1;
      assert multiset(t)[top] == 1;
      assert top in t;
      var init := t[..|t| - 1];
      assert t == init + [t[|t| - 1]];
      Occurs(t, |t| - 1);
      assert t[|t| - 1] == top;
      OneEachInit(t, init, next);
      RisingIsCounting(init, next - 1);
    }
  }

  lemma OneEachInit(t: seq<int>, init: seq<int>, next: nat)
    requires next > 1 && OneEach(t, next) && t == init + [next - 1]
    ensures OneEach(init, next - 1)
  {
    assert multiset(t) == multiset(init) + multiset{next - 1};
    forall x: int ensures multiset(init)[x] == if 1 <= x < next - 1 then 1 else 0 {
      assert multiset(t)[x] == multiset(init)[x] + multiset{next - 1}[x];
    }
  }

  lemma {:induction false} InsertIds(r: StepRecord, s: seq<StepRecord>)
    ensures multiset(Ids(Insert(r, s))) == multiset(Ids(s)) + multiset{r.id}
    decreases |s|
  {
    if s != [] && s[|s| - 1].id > r.id {
      var init, last := s[..|s| - 1], s[|s| - 1];
      InsertIds(r, init);
      IdsConcat(Insert(r, init), last);
      IdsConcat(init, last);
      assert s == init + [last];
    } else {
      IdsConcat(s, r);
      assert s + [r] == Insert(r, s);
    }
  }

  /** Sorting neither loses an id nor makes one up. */
  lemma {:induction false} SortKeepsIds(s: seq<StepRecord>)
    ensures multiset(Ids(SortById(s))) == multiset(Ids(s))
    decreases |s|
  {
    hide Ids;
    if s != [] {
      var init, last := s[..|s| - 1], s[|s| - 1];
      SortKeepsIds(init);
      InsertIds(last, SortById(init));
      IdsConcat(init, last);
      assert s == init + [last];
    }
  }

  /** Sorted by id, the records are those of the steps 1, 2, ..., next - 1. */
  lemma SortedIds(l: seq<Action>, next: nat)
    requires StepsIn(l, 1, next)
    ensures var s := SortById(JournalOf(l).steps); |s| == next - 1 && forall k | 0 <= k < |s| :: s[k].id == k + 1
  {
    hide StepsIn, JournalOf, SortById;
    StepsInFrom(l, next);
    var steps := JournalOf(l).steps;
    var s := SortById(steps);
    SortKeepsIds(steps);
    SortElements(steps);
    forall x: int ensures multiset(Ids(s))[x] == if 1 <= x < next then 1 else 0 {
      if x >= 0 {
        StartedIds(l, x);
        StartsIn(l, next, x);
      } else {
        assert x !in Ids(s);
      }
    }
    RisingIsCounting(Ids(s), next);
    forall k | 0 <= k < |s| ensures s[k].id == k + 1 { assert Ids(s)[k] == s[k].id; }
  }

  lemma StepsInFrom(l: seq<Action>, next: nat)
    requires StepsIn(l, 1, next)
    ensures next >= 1
  {
  }

  /** Each record of the list is the record of its id. */
  lemma RecordsAreTheirIds(l: seq<Action>, next: nat, k: nat)
    requires StepsIn(l, 1, next) && k < |JournalOf(l).steps|
    ensures var j := JournalOf(l); 1 <= j.steps[k].id < next && StepRecordOf(j, j.steps[k].id) == Some(j.steps[k])
  {
    hide StepsIn;
    var j := JournalOf(l);
    var id := j.steps[k].id;
    var ids := Ids(j.steps);
    StartedIds(l, id);
    StartsIn(l, next, id);
    assert ids[k] == id;
    assert id in multiset(ids);
    var at := j.stepAt[id];
    assert ids[at] == id;
    if k < at { TwiceInList(ids, k, at); } else if at < k { TwiceInList(ids, at, k); }
  }

  lemma TwiceInList(ids: seq<int>, lo: nat, hi: nat)
    requires lo < hi < |ids| && ids[lo] == ids[hi]
    ensures multiset(ids)[ids[lo]] >= 2
  {
    assert ids == ids[..hi] + ids[hi..];
    Occurs(ids[..hi], lo);
    Occurs(ids[hi..], 0);
    assert multiset(ids) == multiset(ids[..hi]) + multiset(ids[hi..]);
  }

  // ---------------------------------------------------------------- every schedule has the tags

  lemma StartedElsewhere(l: seq<Action>, m: seq<Action>, g: GroupId)
    requires HasStarted(l, g) && Project(l, OfGroup(g)) == Project(m, OfGroup(g))
    ensures HasStarted(m, g)
  {
    var n :| 0 <= n < |l| && l[n].Emit? && l[n].event.GroupStarted? && l[n].event.gid == g;
    ProjectElements(l, OfGroup(g));
    ProjectElements(m, OfGroup(g));
    assert l[n] in Project(l, OfGroup(g));
    var k :| 0 <= k < |m| && m[k] == l[n];
  }

  lemma TagsElsewhere(l: seq<Action>, m: seq<Action>, entries: seq<Entry>, i: nat, next: nat)
    requires Tags(l, entries, i, next) && forall key :: Project(l, key) == Project(m, key)
    ensures Tags(m, entries, i, next)
  {
    forall id: nat | 1 <= id < next ensures Known(m, entries, i, id) && TagOf(m, id) == TagOf(l, id) {
      assert Known(l, entries, i, id);
      assert Project(l, OfStep(id)) == Project(m, OfStep(id));
      if TagOf(l, id).Some? { StartedElsewhere(l, m, TagOf(l, id).value); }
    }
    forall a: nat, b: nat, c: nat | 1 <= a < b < c < next ensures Joined(m, a, b, c) {
      assert Joined(l, a, b, c);
    }
  }

  lemma ScheduleTagged(cfg: Config, l: seq<Action>) returns (i: nat)
    requires Linearizes(l, Run(cfg).state.blocks) && DistinctGroups(cfg.entries)
    ensures StepsIn(l, 1, Run(cfg).state.next) && Tags(l, cfg.entries, i, Run(cfg).state.next)
  {
    hide Run, Separate, Tags, StepsIn;
    i := RunIsTagged(cfg);
    RunIsOrderly(cfg);
    RunSteps(cfg, l);
    var blocks := Run(cfg).state.blocks;
    forall key ensures Project(Sequential(blocks), key) == Project(l, key) { LinearizationProjects(l, blocks, key); }
    TagsElsewhere(Sequential(blocks), l, cfg.entries, i, Run(cfg).state.next);
  }

  lemma {:induction false} StartGivesView(mine: seq<Action>, g: GroupId)
    requires exists k :: 0 <= k < |mine| && mine[k].Emit? && mine[k].event.GroupStarted?
    ensures GroupViewOf(mine).Some?
    decreases |mine|
  {
    var k :| 0 <= k < |mine| && mine[k].Emit? && mine[k].event.GroupStarted?;
    if k < |mine| - 1 {
      assert Init(mine)[k] == mine[k];
      StartGivesView(Init(mine), g);
    }
  }

  lemma StartedIsKnown(l: seq<Action>, g: GroupId)
    requires HasStarted(l, g)
    ensures g in JournalOf(l).groupAt
  {
    hide JournalOf;
    var n :| 0 <= n < |l| && l[n].Emit? && l[n].event.GroupStarted? && l[n].event.gid == g;
    var mine := Project(l, OfGroup(g));
    ProjectElements(l, OfGroup(g));
    assert l[n] in mine;
    var k :| 0 <= k < |mine| && mine[k] == l[n];
    StartGivesView(mine, g);
    GroupRecordIsView(l, g);
  }

  /** A record's group is its step's tag. */
  lemma RecordTag(l: seq<Action>, next: nat, r: StepRecord)
    requires StepsIn(l, 1, next) && r in JournalOf(l).steps
    ensures 1 <= r.id < next && r.group == TagOf(l, r.id) && r.status.Some?
  {
    hide WholeStep, JournalOf;
    var k :| 0 <= k < |JournalOf(l).steps| && JournalOf(l).steps[k] == r;
    RecordsAreTheirIds(l, next, k);
    RecordIsView(l, r.id);
    var mine := Project(l, OfStep(r.id));
    WholeRecord(mine, r.id);
    StartsOnce(mine, r.id);
  }

  lemma TagKnown(l: seq<Action>, entries: seq<Entry>, i: nat, next: nat, id: nat)
    requires Tags(l, entries, i, next) && 1 <= id < next && TagOf(l, id).Some?
    ensures HasStarted(l, TagOf(l, id).value)
  {
    hide TagOf, HasStarted;
    assert Known(l, entries, i, id);
  }

  lemma JournalKnowsGroups(l: seq<Action>, entries: seq<Entry>, i: nat, next: nat)
    requires StepsIn(l, 1, next) && Tags(l, entries, i, next)
    ensures GroupsKnown(JournalOf(l))
  {
    hide StepsIn, Tags, JournalOf, TagOf, HasStarted;
    var j := JournalOf(l);
    forall k | 0 <= k < |j.steps| && j.steps[k].group.Some? ensures j.steps[k].group.value in j.groupAt {
      var r := j.steps[k];
      RecordTag(l, next, r);
      TagKnown(l, entries, i, next, r.id);
      StartedIsKnown(l, r.group.value);
    }
  }

  lemma SortedContiguous(l: seq<Action>, entries: seq<Entry>, i: nat, next: nat)
    requires StepsIn(l, 1, next) && Tags(l, entries, i, next)
    ensures Contiguous(SortById(JournalOf(l).steps))
  {
    hide StepsIn, Tags, JournalOf, TagOf, SortById;
    var s := SortById(JournalOf(l).steps);
    SortedIds(l, next);
    SortElements(JournalOf(l).steps);
    forall k | 0 <= k < |s| ensures s[k].group == TagOf(l, k + 1) {
      assert s[k] in JournalOf(l).steps;
      RecordTag(l, next, s[k]);
    }
    forall a, b, c | 0 <= a < b < c < |s| && s[a].group.Some? && s[a].group == s[c].group ensures s[b].group == s[a].group {
      TagsJoin(l, entries, i, next, a + 1, b + 1, c + 1);
    }
  }

  lemma TagsJoin(l: seq<Action>, entries: seq<Entry>, i: nat, next: nat, a: nat, b: nat, c: nat)
    requires Tags(l, entries, i, next) && 1 <= a < b < c < next
    ensures Joined(l, a, b, c)
  {
  }

  /**
   Whatever the schedule of a run, the journal has exactly the steps 1..next - 1, each finished, each
   group's steps next to each other; and the execution graph's leaves, left to right, are those steps.
   */
  lemma LeavesAreTheSteps(cfg: Config, l: seq<Action>, name: string)
    requires Linearizes(l, Run(cfg).state.blocks) && DistinctGroups(cfg.entries)
    ensures var j := JournalOf(l);
      var s := SortById(j.steps);
      && GroupsKnown(j)
      && |LeafList(Tree(j, name).children)| == |s|
      && (forall k | 0 <= k < |s| :: LeafList(Tree(j, name).children)[k] == GraphNode(StepNode, s[k].tool, s[k].status, []))
      && |s| == Run(cfg).state.next - 1
      && (forall k | 0 <= k < |s| :: s[k].id == k + 1 && s[k].status.Some?)
      && Contiguous(s)
  {
    hide Run, StepsIn, Tags, JournalOf, SortById, Contiguous, GroupsKnown, LeavesOf, DistinctGroups;
    var next := Run(cfg).state.next;
    var i := ScheduleTagged(cfg, l);
    JournalKnowsGroups(l, cfg.entries, i, next);
    SortedContiguous(l, cfg.entries, i, next);
    LeavesInOrder(JournalOf(l), name);
    SortedIds(l, next);
    SortElements(JournalOf(l).steps);
    var s := SortById(JournalOf(l).steps);
    forall k | 0 <= k < |s| ensures s[k].status.Some? {
      assert s[k] in JournalOf(l).steps;
      RecordTag(l, next, s[k]);
    }
  }
}
