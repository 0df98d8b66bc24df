/** Fan-out and fan-in: what a group's members leave behind does not depend on the interleaving. */
module GroupLaws {
  import opened Wrappers
  import opened Values
  import opened Runtime
  import opened Merges
  import opened Blocks
  import opened Measures
  import opened Workers
  import opened WorkerLaws
  import opened Plans

  lemma MemberAbout(cfg: Config, tools: seq<Tool>, agent: Option<Agent>, first: nat, group: GroupId, b: Bindings, k: nat)
    requires k < |tools|
    ensures About(Members(MemberRuns(cfg, tools, agent, first, group, b))[k], OfStep(first + k))
  {
    hide ToolRun;
    ToolRunAbout(cfg.policy, cfg.world, tools[k], agent, first + k, Some(group), b, true);
  }

  /** Member k, and nobody else, acts for step first + k. */
  lemma MemberOwns(cfg: Config, tools: seq<Tool>, agent: Option<Agent>, first: nat, group: GroupId, b: Bindings, k: nat)
    requires k < |tools|
    ensures Owns(Members(MemberRuns(cfg, tools, agent, first, group, b)), k, OfStep(first + k))
  {
    var members := Members(MemberRuns(cfg, tools, agent, first, group, b));
    forall j | 0 <= j < |members| && j != k ensures Avoids(members[j], OfStep(first + k)) {
      MemberAbout(cfg, tools, agent, first, group, b, j);
    }
  }

  predicate IsMemberKey(key: Key, first: nat, n: nat) {
    key.OfStep? && first <= key.id < first + n
  }

  lemma NoMemberOwns(cfg: Config, tools: seq<Tool>, agent: Option<Agent>, first: nat, group: GroupId, b: Bindings, key: Key)
    requires !IsMemberKey(key, first, |tools|)
    ensures NoneOwns(Members(MemberRuns(cfg, tools, agent, first, group, b)), key)
  {
    var members := Members(MemberRuns(cfg, tools, agent, first, group, b));
    forall j | 0 <= j < |members| ensures Avoids(members[j], key) {
      MemberAbout(cfg, tools, agent, first, group, b, j);
    }
  }

  lemma GroupSeparate(cfg: Config, tools: seq<Tool>, agent: Option<Agent>, first: nat, group: GroupId, b: Bindings)
    ensures Separate(Fork(Members(MemberRuns(cfg, tools, agent, first, group, b))))
  {
    var members := Members(MemberRuns(cfg, tools, agent, first, group, b));
    forall key ensures AtMostOneOwns(members, key) {
      if IsMemberKey(key, first, |tools|) {
        MemberOwns(cfg, tools, agent, first, group, b, key.id - first);
      } else {
        NoMemberOwns(cfg, tools, agent, first, group, b, key);
      }
    }
  }

  /** Whatever the schedule, step first + k does what its own thread does. */
  lemma GroupProjects(cfg: Config, tools: seq<Tool>, agent: Option<Agent>, first: nat, group: GroupId, b: Bindings,
                      l: seq<Action>, k: nat)
    requires IsMerge(l, Members(MemberRuns(cfg, tools, agent, first, group, b))) && k < |tools|
    ensures Project(l, OfStep(first + k)) == MemberRuns(cfg, tools, agent, first, group, b)[k].actions
  {
    hide ToolRun, Project, IsMerge;
    var members := Members(MemberRuns(cfg, tools, agent, first, group, b));
    MemberOwns(cfg, tools, agent, first, group, b, k);
    MergeProjects(l, members, k, OfStep(first + k));
    MemberAbout(cfg, tools, agent, first, group, b, k);
    ProjectAll(members[k], OfStep(first + k));
  }

  /** After fan-in the shared dict holds every member's output under its own step id, whatever the schedule. */
  lemma GroupSink(cfg: Config, tools: seq<Tool>, agent: Option<Agent>, first: nat, group: GroupId, b: Bindings,
                  l: seq<Action>, k: nat)
    requires IsMerge(l, Members(MemberRuns(cfg, tools, agent, first, group, b))) && k < |tools|
    requires MemberRuns(cfg, tools, agent, first, group, b)[k].output.Some?
    ensures first + k in SinkOf(l)
    ensures SinkOf(l)[first + k] == MemberRuns(cfg, tools, agent, first, group, b)[k].output.value
  {
    hide ToolRun, SinkOf, Project, IsMerge;
    GroupProjects(cfg, tools, agent, first, group, b, l, k);
    ToolRunSinks(cfg.policy, cfg.world, tools[k], agent, first + k, Some(group), b);
    SinkProjects(l, first + k);
  }
}
