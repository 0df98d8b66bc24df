/**
 The Journal subscriber.  Step and group records are shared between a list and a dict in the source;
 here the dict maps an id to the record's place in the list, which is the same sharing.
 */
module Journals {
  import opened Wrappers
  import opened Values
  import opened Runtime
  import opened Merges
  import opened Numerals

  datatype StepRecord = StepRecord(
    id: nat, tool: string, group: Option<GroupId>, replayed: bool,
    status: Option<bool>, output: Value, error: Option<string>,
    retries: nat, retryErrors: seq<string>,
    usage: Option<map<string, real>>, metadata: Option<map<string, Meta>>, approved: Option<bool>)

  datatype GroupRecord = GroupRecord(
    gid: GroupId, tools: seq<string>, consensus: bool, status: Option<bool>, stepIds: seq<nat>)

  /** `broken` stands for a handler having raised KeyError. */
  datatype Journal = Journal(
    status: Option<bool>,
    steps: seq<StepRecord>, stepAt: map<nat, nat>,
    groups: seq<GroupRecord>, groupAt: map<GroupId, nat>,
    broken: bool)

  const EMPTY := Journal(None, [], map[], [], map[], false)

  predicate IsStepEvent(e: Event) {
    !e.WorkflowStarted? && !e.WorkflowFinished? && !e.GroupStarted? && !e.GroupFinished?
  }

  function NewRecord(e: Event): StepRecord
    requires e.StepStarted?
  {
    StepRecord(e.id, e.tool, e.group, e.replayed, None, Null, None, 0, [], None, None, None)
  }

  /** What a step's later events do to its record. */
  function OnStep(r: StepRecord, e: Event): StepRecord {
    match e
    case ToolSucceeded(_, _, output, _) => r.(output := output)
    case ToolFailed(_, _, error, _) => r.(error := Some(error))
    case StepFinished(_, _, success, _) => r.(status := Some(success))
    case RetryAttempted(_, _, attempt, error, _) =>
      r.(retries := attempt, retryErrors := r.retryErrors + ["attempt " + Digits(attempt) + ": " + error])
    case UsageReported(_, _, usage, _) => r.(usage := Some(usage))
    case StrategyMetadataReported(_, _, metadata, _) => r.(metadata := Some(metadata))
    case ApprovalDecided(_, _, approved, _) => r.(approved := Some(approved))
    case _ => r
  }

  /** Events the journal does not subscribe to, or that touch no record. */
  predicate Unheard(e: Event) {
    e.WorkflowStarted? || e.ToolCalled? || e.ApprovalRequested?
  }

  predicate Consistent(j: Journal) {
    && (forall id | id in j.stepAt :: j.stepAt[id] < |j.steps| && j.steps[j.stepAt[id]].id == id)
    && (forall gid | gid in j.groupAt :: j.groupAt[gid] < |j.groups| && j.groups[j.groupAt[gid]].gid == gid)
  }

  function StartStep(j: Journal, e: Event): (j': Journal)
    requires Consistent(j) && e.StepStarted?
    ensures Consistent(j')
  {
    var j1 := j.(steps := j.steps + [NewRecord(e)], stepAt := j.stepAt[e.id := |j.steps|]);
    if e.group.None? then j1
    else if e.group.value !in j.groupAt then j1.(broken := true)
    else
      var at := j.groupAt[e.group.value];
      j1.(groups := j.groups[at := j.groups[at].(stepIds := j.groups[at].stepIds + [e.id])])
  }

  function UpdateStep(j: Journal, e: Event): (j': Journal)
    requires Consistent(j) && IsStepEvent(e)
    ensures Consistent(j')
  {
    if e.id !in j.stepAt then j.(broken := true)
    else j.(steps := j.steps[j.stepAt[e.id] := OnStep(j.steps[j.stepAt[e.id]], e)])
  }

  function StartGroup(j: Journal, e: Event): (j': Journal)
    requires Consistent(j) && e.GroupStarted?
    ensures Consistent(j')
  {
    j.(groups := j.groups + [GroupRecord(e.gid, e.tools, e.consensus, None, [])], groupAt := j.groupAt[e.gid := |j.groups|])
  }

  function FinishGroup(j: Journal, e: Event): (j': Journal)
    requires Consistent(j) && e.GroupFinished?
    ensures Consistent(j')
  {
    if e.gid !in j.groupAt then j.(broken := true)
    else j.(groups := j.groups[j.groupAt[e.gid] := j.groups[j.groupAt[e.gid]].(status := Some(e.success))])
  }

  function OnEvent(j: Journal, e: Event): (j': Journal)
    requires Consistent(j)
    ensures Consistent(j')
  {
    if Unheard(e) then j
    else if e.WorkflowFinished? then j.(status := Some(e.success))
    else if e.GroupStarted? then StartGroup(j, e)
    else if e.GroupFinished? then FinishGroup(j, e)
    else if e.StepStarted? then StartStep(j, e)
    else UpdateStep(j, e)
  }

  function OnAction(j: Journal, a: Action): (j': Journal)
    requires Consistent(j)
    ensures Consistent(j')
  {
    if a.Emit? then OnEvent(j, a.event) else j
  }

  /** The journal of a trace. */
  function JournalOf(l: seq<Action>): (j: Journal)
    ensures Consistent(j)
  {
    if l == [] then EMPTY else OnAction(JournalOf(Init(l)), Last(l))
  }

  lemma JournalSnoc(l: seq<Action>, a: Action)
    ensures JournalOf(l + [a]) == OnAction(JournalOf(l), a)
  {
    assert Init(l + [a]) == l;
  }

  // ---------------------------------------------------------------- one step's record

  function StepRecordOf(j: Journal, id: nat): Option<StepRecord>
    requires Consistent(j)
  {
    if id in j.stepAt then Some(j.steps[j.stepAt[id]]) else None
  }

  function ViewStep(v: Option<StepRecord>, a: Action): Option<StepRecord> {
    if !a.Emit? then v
    else if a.event.StepStarted? then Some(NewRecord(a.event))
    else if v.None? then None
    else Some(OnStep(v.value, a.event))
  }

  /** A step's record, from that step's own actions. */
  function ViewOf(l: seq<Action>): Option<StepRecord> {
    if l == [] then None else ViewStep(ViewOf(Init(l)), Last(l))
  }

  lemma ViewSnoc(l: seq<Action>, a: Action)
    ensures ViewOf(l + [a]) == ViewStep(ViewOf(l), a)
  {
    assert Init(l + [a]) == l;
  }

  lemma StartStepRecord(j: Journal, e: Event, id: nat)
    requires Consistent(j) && e.StepStarted?
    ensures StepRecordOf(StartStep(j, e), id) == if e.id == id then Some(NewRecord(e)) else StepRecordOf(j, id)
  {
  }

  lemma UpdateStepRecord(j: Journal, e: Event, id: nat)
    requires Consistent(j) && IsStepEvent(e)
    ensures StepRecordOf(UpdateStep(j, e), id) ==
      if e.id == id && id in j.stepAt then Some(OnStep(StepRecordOf(j, id).value, e)) else StepRecordOf(j, id)
  {
    if e.id in j.stepAt && id in j.stepAt && e.id != id {
      assert j.stepAt[e.id] != j.stepAt[id];
    }
  }

  /** One event changes only its own step's record. */
  lemma OnEventRecord(j: Journal, e: Event, id: nat)
    requires Consistent(j)
    ensures StepRecordOf(OnEvent(j, e), id) ==
      if KeyOf(Emit(e)) == OfStep(id) then ViewStep(StepRecordOf(j, id), Emit(e)) else StepRecordOf(j, id)
  {
    if e.StepStarted? { StartStepRecord(j, e, id); }
    else if IsStepEvent(e) { UpdateStepRecord(j, e, id); }
  }

  /** Whatever the interleaving, a step's record is made of that step's actions in their order. */
  lemma {:induction false} RecordIsView(l: seq<Action>, id: nat)
    ensures StepRecordOf(JournalOf(l), id) == ViewOf(Project(l, OfStep(id)))
    decreases |l|
  {
    if l != [] {
      RecordIsView(Init(l), id);
      var a := Last(l);
      if a.Emit? { OnEventRecord(JournalOf(Init(l)), a.event, id); }
      var before := Project(Init(l), OfStep(id));
      if KeyOf(a) == OfStep(id) {
        ViewSnoc(before, a);
        assert Project(l, OfStep(id)) == before + [a];
      } else {
        assert Project(l, OfStep(id)) == before;
      }
    }
  }

  // ---------------------------------------------------------------- one group's record

  function GroupRecordOf(j: Journal, gid: GroupId): Option<GroupRecord>
    requires Consistent(j)
  {
    if gid in j.groupAt then Some(j.groups[j.groupAt[gid]]) else None
  }

  function ViewGroup(v: Option<GroupRecord>, a: Action): Option<GroupRecord> {
    if !a.Emit? then v
    else if a.event.GroupStarted? then Some(GroupRecord(a.event.gid, a.event.tools, a.event.consensus, None, []))
    else if a.event.GroupFinished? && v.Some? then Some(v.value.(status := Some(a.event.success)))
    else v
  }

  function GroupViewOf(l: seq<Action>): Option<GroupRecord> {
    if l == [] then None else ViewGroup(GroupViewOf(Init(l)), Last(l))
  }

  lemma GroupViewSnoc(l: seq<Action>, a: Action)
    ensures GroupViewOf(l + [a]) == ViewGroup(GroupViewOf(l), a)
  {
    assert Init(l + [a]) == l;
  }

  /** All of a group's record but the order its steps started in. */
  predicate SameGroup(a: Option<GroupRecord>, b: Option<GroupRecord>) {
    a.Some? == b.Some? && (a.Some? ==> a.value.(stepIds := []) == b.value.(stepIds := []))
  }

  lemma StartStepGroup(j: Journal, e: Event, gid: GroupId)
    requires Consistent(j) && e.StepStarted?
    ensures SameGroup(GroupRecordOf(StartStep(j, e), gid), GroupRecordOf(j, gid))
  {
  }

  lemma FinishGroupRecord(j: Journal, e: Event, gid: GroupId)
    requires Consistent(j) && e.GroupFinished?
    ensures GroupRecordOf(FinishGroup(j, e), gid) ==
      if e.gid == gid && gid in j.groupAt then Some(GroupRecordOf(j, gid).value.(status := Some(e.success)))
      else GroupRecordOf(j, gid)
  {
    if e.gid in j.groupAt && gid in j.groupAt && e.gid != gid {
      assert j.groupAt[e.gid] != j.groupAt[gid];
    }
  }

  lemma OnEventGroup(j: Journal, e: Event, gid: GroupId, v: Option<GroupRecord>)
    requires Consistent(j) && SameGroup(GroupRecordOf(j, gid), v)
    ensures SameGroup(GroupRecordOf(OnEvent(j, e), gid), if KeyOf(Emit(e)) == OfGroup(gid) then ViewGroup(v, Emit(e)) else v)
  {
    hide OnStep;
    if e.StepStarted? { hide StartStep; StartStepGroup(j, e, gid); }
    else if e.GroupFinished? { hide FinishGroup; FinishGroupRecord(j, e, gid); }
  }

  lemma {:induction false} GroupRecordIsView(l: seq<Action>, gid: GroupId)
    ensures SameGroup(GroupRecordOf(JournalOf(l), gid), GroupViewOf(Project(l, OfGroup(gid))))
    decreases |l|
  {
    if l != [] {
      GroupRecordIsView(Init(l), gid);
      var a := Last(l);
      var before := Project(Init(l), OfGroup(gid));
      if a.Emit? { OnEventGroup(JournalOf(Init(l)), a.event, gid, GroupViewOf(before)); }
      if KeyOf(a) == OfGroup(gid) {
        GroupViewSnoc(before, a);
        assert Project(l, OfGroup(gid)) == before + [a];
      } else {
        assert Project(l, OfGroup(gid)) == before;
      }
    }
  }

  // ---------------------------------------------------------------- the subscriber itself

  class JournalLog {
    var status: Option<bool>
    var steps: seq<StepRecord>
    var stepAt: map<nat, nat>
    var groups: seq<GroupRecord>
    var groupAt: map<GroupId, nat>
    var broken: bool
    ghost var log: seq<Action>      // everything the run has done so far

    constructor ()
      ensures Valid() && log == []
    {
      status, steps, stepAt, groups, groupAt, broken := None, [], map[], [], map[], false;
      log := [];
    }

    /** The journal is that of the trace. */
    ghost predicate Valid()
      reads this
    {
      State() == JournalOf(log)
    }

    method Notify(e: Event)
      requires Valid()
      modifies this
      ensures Valid() && log == old(log) + [Emit(e)]
    {
      JournalSnoc(log, Emit(e));
      On(e);
      log := log + [Emit(e)];
    }

    /** Actions that are not events pass the journal by. */
    ghost method Miss(a: Action)
      requires Valid() && !a.Emit?
      modifies this`log
      ensures Valid() && log == old(log) + [a]
    {
      JournalSnoc(log, a);
      log := log + [a];
    }

    function State(): Journal
      reads this
    {
      Journal(status, steps, stepAt, groups, groupAt, broken)
    }

    method OnStepStarted(e: Event)
      requires Consistent(State()) && e.StepStarted?
      modifies this
      ensures State() == StartStep(old(State()), e) && log == old(log)
    {
      stepAt := stepAt[e.id := |steps|];
      steps := steps + [NewRecord(e)];
      if e.group.Some? {
        if e.group.value !in groupAt {
          broken := true;
        } else {
          var at := groupAt[e.group.value];
          groups := groups[at := groups[at].(stepIds := groups[at].stepIds + [e.id])];
        }
      }
    }

    method On(e: Event)
      requires Consistent(State())
      modifies this
      ensures State() == OnEvent(old(State()), e) && log == old(log)
    {
      if Unheard(e) {
      } else if e.WorkflowFinished? {
        status := Some(e.success);
      } else if e.GroupStarted? {
        groupAt := groupAt[e.gid := |groups|];
        groups := groups + [GroupRecord(e.gid, e.tools, e.consensus, None, [])];
      } else if e.GroupFinished? {
        if e.gid !in groupAt { broken := true; }
        else { groups := groups[groupAt[e.gid] := groups[groupAt[e.gid]].(status := Some(e.success))]; }
      } else if e.StepStarted? {
        OnStepStarted(e);
      } else if e.id !in stepAt {
        broken := true;
      } else {
        steps := steps[stepAt[e.id] := OnStep(steps[stepAt[e.id]], e)];
      }
    }
  }
}
