/**
 Whatever order the worker threads of a run are interleaved in: the same records, the same totals,
 the same cost; and at every moment in between, cost reported equals cost charged plus what the
 threads in flight have reported and not charged yet.
 */
module Confluence {
  import opened Wrappers
  import opened Values
  import opened Runtime
  import opened Merges
  import opened Blocks
  import opened Measures
  import opened Plans
  import opened StepLaws
  import opened RunLaws
  import opened Outcomes
  import opened Journals
  import opened MetricsModel

  // ---------------------------------------------------------------- the same outcome

  lemma RunProjects(cfg: Config, l: seq<Action>, m: seq<Action>, key: Key)
    requires Linearizes(l, Run(cfg).state.blocks) && Linearizes(m, Run(cfg).state.blocks)
    ensures Project(l, key) == Project(m, key)
  {
    hide Run, Separate;
    RunIsOrderly(cfg);
    LinearizationProjects(l, Run(cfg).state.blocks, key);
    LinearizationProjects(m, Run(cfg).state.blocks, key);
  }

  /** Any two schedules leave the same journal record for every step and, but for start order, for every group. */
  lemma SameRecords(cfg: Config, l: seq<Action>, m: seq<Action>)
    requires Linearizes(l, Run(cfg).state.blocks) && Linearizes(m, Run(cfg).state.blocks)
    ensures forall id :: StepRecordOf(JournalOf(l), id) == StepRecordOf(JournalOf(m), id)
    ensures forall gid :: SameGroup(GroupRecordOf(JournalOf(l), gid), GroupRecordOf(JournalOf(m), gid))
  {
    hide Run, JournalOf, StepRecordOf, GroupRecordOf;
    forall id ensures StepRecordOf(JournalOf(l), id) == StepRecordOf(JournalOf(m), id) {
      RunProjects(cfg, l, m, OfStep(id));
      RecordIsView(l, id);
      RecordIsView(m, id);
    }
    forall gid ensures SameGroup(GroupRecordOf(JournalOf(l), gid), GroupRecordOf(JournalOf(m), gid)) {
      RunProjects(cfg, l, m, OfGroup(gid));
      GroupRecordIsView(l, gid);
      GroupRecordIsView(m, gid);
    }
  }

  /** Any two schedules leave the same metrics and the same cost. */
  lemma SameTotals(cfg: Config, l: seq<Action>, m: seq<Action>, t: Totals, u: Totals)
    requires Linearizes(l, Run(cfg).state.blocks) && Linearizes(m, Run(cfg).state.blocks)
    requires Counts(t, l) && Counts(u, m)
    ensures t == u && Measure(l, Cost) == Measure(m, Cost) == Run(cfg).state.cost
  {
    hide Run, Counts;
    RunIsOrderly(cfg);
    var blocks := Run(cfg).state.blocks;
    forall q ensures Measure(l, q) == Measure(m, q) == Measure(Sequential(blocks), q) {
      LinearizationMeasure(l, blocks, q);
      LinearizationMeasure(m, blocks, q);
    }
    CountsCarry(t, l, m);
    CountsDetermine(t, u, m);
  }

  // ---------------------------------------------------------------- at every moment

  /** Usage this step has reported and not yet charged. */
  function Pending(mine: seq<Action>): real {
    if mine != [] && Last(mine).Emit? && Last(mine).event.UsageReported? && "cost_usd" in Last(mine).event.usage
    then Last(mine).event.usage["cost_usd"] else 0.0
  }

  /** The same over the steps below n: the usage of the workers in flight. */
  function InFlight(l: seq<Action>, n: nat): real {
    if n == 0 then 0.0 else InFlight(l, n - 1) + Pending(Project(l, OfStep(n - 1)))
  }

  /** The measures of the steps below n, added up step by step. */
  function ByStep(l: seq<Action>, n: nat, q: Quantity): real {
    if n == 0 then 0.0 else ByStep(l, n - 1, q) + Measure(Project(l, OfStep(n - 1)), q)
  }

  lemma {:induction false} ByStepSnoc(l: seq<Action>, a: Action, n: nat, q: Quantity)
    ensures ByStep(l + [a], n, q) ==
      ByStep(l, n, q) + if KeyOf(a).OfStep? && KeyOf(a).id < n then Weight(a, q) else 0.0
    decreases n
  {
    hide Weight;
    if n > 0 {
      ByStepSnoc(l, a, n - 1, q);
      ProjectSnoc(l, a, OfStep(n - 1));
      if KeyOf(a) == OfStep(n - 1) {
        MeasureSnoc(Project(l, OfStep(n - 1)), a, q);
      } else {
        assert Project(l, OfStep(n - 1)) + [] == Project(l, OfStep(n - 1));
      }
    }
  }

  lemma {:induction false} ByStepNothing(n: nat, q: Quantity)
    ensures ByStep([], n, q) == 0.0
    decreases n
  {
    if n > 0 { ByStepNothing(n - 1, q); }
  }

  lemma OnlyStepsCount(a: Action, q: Quantity)
    requires q != Groups && !KeyOf(a).OfStep?
    ensures Weight(a, q) == 0.0
  {
  }

  ghost predicate StepsBelow(l: seq<Action>, n: nat) {
    forall i | 0 <= i < |l| && KeyOf(l[i]).OfStep? :: KeyOf(l[i]).id < n
  }

  lemma StepsBelowInit(l: seq<Action>, n: nat)
    requires StepsBelow(l, n) && l != []
    ensures StepsBelow(Init(l), n) && (KeyOf(Last(l)).OfStep? ==> KeyOf(Last(l)).id < n)
  {
  }

  /** Only groups are counted outside steps, so a trace's other totals are the sums over its steps. */
  lemma {:induction false} MeasureByStep(l: seq<Action>, n: nat, q: Quantity)
    requires q != Groups && StepsBelow(l, n)
    ensures Measure(l, q) == ByStep(l, n, q)
    decreases |l|
  {
    hide Weight, KeyOf, StepsBelow, Measure, ByStep;
    if l == [] {
      ByStepNothing(n, q);
      NothingMeasures(q);
    } else {
      var init, a := Init(l), Last(l);
      assert init + [a] == l;
      StepsBelowInit(l, n);
      MeasureByStep(init, n, q);
      ByStepSnoc(init, a, n, q);
      MeasureSnoc(init, a, q);
      if !KeyOf(a).OfStep? { OnlyStepsCount(a, q); }
    }
  }

  lemma NothingMeasures(q: Quantity)
    ensures Measure([], q) == 0.0
  {
  }

  /** Reported equals charged plus pending. */
  ghost predicate Balanced(l: seq<Action>) {
    Measure(l, Usage(COST)) == Measure(l, Cost) + Pending(l)
  }

  predicate Free(a: Action) {
    !a.Charge? && (a.Emit? ==> !a.event.UsageReported?)
  }

  lemma FreeBalances(l: seq<Action>, a: Action)
    requires Balanced(l) && Pending(l) == 0.0 && Free(a)
    ensures Balanced(l + [a]) && Pending(l + [a]) == 0.0
  {
    MeasureSnoc(l, a, Usage(COST));
    MeasureSnoc(l, a, Cost);
    assert Last(l + [a]) == a;
  }

  lemma ReportBalances(l: seq<Action>, a: Action)
    requires Balanced(l) && Pending(l) == 0.0 && a.Emit? && a.event.UsageReported?
    ensures Balanced(l + [a]) && Pending(l + [a]) == CostIn(a.event.usage)
  {
    MeasureSnoc(l, a, Usage(COST));
    MeasureSnoc(l, a, Cost);
    assert Last(l + [a]) == a;
  }

  lemma ChargeBalances(l: seq<Action>, a: Action)
    requires Balanced(l) && a.Charge? && Pending(l) == a.amount
    ensures Balanced(l + [a]) && Pending(l + [a]) == 0.0
  {
    MeasureSnoc(l, a, Usage(COST));
    MeasureSnoc(l, a, Cost);
    assert Last(l + [a]) == a;
  }

  lemma PlainFree(a: Action, id: nat, ok: bool)
    requires Plain(a) || IsStart(a, id) || IsFinish(a, id, ok)
    ensures Free(a)
  {
  }

  lemma ShapedAt(l: seq<Action>, id: nat, ok: bool, plain: seq<Action>, pay: seq<Action>, k: nat)
    requires Shaped(l, id, ok, plain, pay) && k < |l|
    ensures |l| == 2 + |plain| + |pay|
    ensures k <= |plain| || k == |l| - 1 ==> Free(l[k])
    ensures 1 + |plain| <= k < |l| - 1 ==> l[k] == pay[k - 1 - |plain|]
  {
    hide Free, AllPlain;
    if k == 0 || k == |l| - 1 {
      PlainFree(l[k], id, ok);
    } else if k <= |plain| {
      assert l[k] == plain[k - 1];
      PlainAt(plain, k - 1);
      PlainFree(l[k], id, ok);
    }
  }

  lemma PlainAt(plain: seq<Action>, k: nat)
    requires AllPlain(plain) && k < |plain|
    ensures Plain(plain[k])
  {
  }

  lemma NextPrefix<T>(l: seq<T>, k: nat)
    requires 0 < k <= |l|
    ensures l[..k] == l[..k - 1] + [l[k - 1]]
  {
  }

  /** Within a whole step, at every prefix: reported equals charged plus pending; and nothing pends at its end. */
  lemma {:induction false} PrefixBalances(l: seq<Action>, id: nat, ok: bool, plain: seq<Action>, pay: seq<Action>, k: nat)
    requires Shaped(l, id, ok, plain, pay) && k <= |l|
    ensures Balanced(l[..k])
    ensures k != |plain| + 2 || pay == [] ==> Pending(l[..k]) == 0.0
    ensures k == |plain| + 2 && pay != [] ==> Pending(l[..k]) == CostIn(pay[0].event.usage)
    decreases k
  {
    hide Shaped, Balanced, Free, Pending;
    if k == 0 {
      NothingBalances(l);
    } else {
      PrefixBalances(l, id, ok, plain, pay, k - 1);
      ShapedAt(l, id, ok, plain, pay, k - 1);
      ShapedPays(l, id, ok, plain, pay);
      NextPrefix(l, k);
      if k - 1 <= |plain| || k == |l| {
        FreeBalances(l[..k - 1], l[k - 1]);
      } else if k - 1 == |plain| + 1 {
        ReportBalances(l[..k - 1], l[k - 1]);
      } else {
        ChargeBalances(l[..k - 1], l[k - 1]);
      }
    }
  }

  lemma NothingBalances(l: seq<Action>)
    ensures Balanced(l[..0]) && Pending(l[..0]) == 0.0
  {
  }

  lemma ShapedPays(l: seq<Action>, id: nat, ok: bool, plain: seq<Action>, pay: seq<Action>)
    requires Shaped(l, id, ok, plain, pay)
    ensures IsPayment(pay, id)
  {
  }

  lemma PrefixConserves(l: seq<Action>, id: nat, ok: bool, k: nat)
    requires Whole(l, id, ok) && k <= |l|
    ensures Balanced(l[..k])
  {
    hide Shaped, Balanced;
    var plain, pay :| Shaped(l, id, ok, plain, pay);
    PrefixBalances(l, id, ok, plain, pay, k);
  }

  lemma StepConserves(l: seq<Action>, p: seq<Action>, to: nat, id: nat)
    requires StepsIn(l, 1, to) && p <= l
    ensures Balanced(Project(p, OfStep(id)))
  {
    hide Balanced, Whole;
    var whole, part := Project(l, OfStep(id)), Project(p, OfStep(id));
    assert p == l[..|p|];
    ProjectPrefix(l, |p|, OfStep(id));
    assert part == whole[..|part|];
    if 1 <= id < to {
      if Whole(whole, id, true) { PrefixConserves(whole, id, true, |part|); } else { PrefixConserves(whole, id, false, |part|); }
    } else {
      NothingBalances(part);
      assert part == part[..0];
    }
  }

  lemma {:induction false} StepsConserve(l: seq<Action>, p: seq<Action>, to: nat, n: nat)
    requires StepsIn(l, 1, to) && p <= l
    ensures ByStep(p, n, Usage(COST)) == ByStep(p, n, Cost) + InFlight(p, n)
    decreases n
  {
    hide StepsIn, Pending;
    if n > 0 {
      StepsConserve(l, p, to, n - 1);
      StepConserves(l, p, to, n - 1);
    }
  }

  lemma StepIdsBounded(l: seq<Action>, to: nat)
    requires StepsIn(l, 1, to)
    ensures StepsBelow(l, to)
  {
    forall i | 0 <= i < |l| && KeyOf(l[i]).OfStep? ensures KeyOf(l[i]).id < to {
      var id := KeyOf(l[i]).id;
      ProjectElements(l, OfStep(id));
      assert l[i] in Project(l, OfStep(id));
    }
  }

  lemma StepsBelowPrefix(l: seq<Action>, k: nat, n: nat)
    requires StepsBelow(l, n) && k <= |l|
    ensures StepsBelow(l[..k], n)
  {
    forall i | 0 <= i < k && KeyOf(l[..k][i]).OfStep? ensures KeyOf(l[..k][i]).id < n {
      assert l[..k][i] == l[i];
    }
  }

  /** In every reachable state of every run: cost in Metrics == cost charged + cost in flight. */
  lemma CostConserved(cfg: Config, l: seq<Action>, n: nat)
    requires Linearizes(l, Run(cfg).state.blocks) && n <= |l|
    ensures Measure(l[..n], Usage("cost_usd")) == Measure(l[..n], Cost) + InFlight(l[..n], Run(cfg).state.next)
  {
    hide Run, StepsIn, StepsBelow;
    RunSteps(cfg, l);
    var p, to := l[..n], Run(cfg).state.next;
    StepIdsBounded(l, to);
    StepsBelowPrefix(l, n, to);
    MeasureByStep(p, to, Usage(COST));
    MeasureByStep(p, to, Cost);
    StepsConserve(l, p, to, to);
  }

  // ---------------------------------------------------------------- at the end

  /** What the journal says a step cost. */
  function RecordedCost(r: Option<StepRecord>): real {
    if r.Some? && r.value.usage.Some? && "cost_usd" in r.value.usage.value then r.value.usage.value["cost_usd"] else 0.0
  }

  /** The journal's costs of the steps below n, added up. */
  function JournalCost(l: seq<Action>, n: nat): real {
    if n == 0 then 0.0 else JournalCost(l, n - 1) + RecordedCost(StepRecordOf(JournalOf(l), n - 1))
  }

  lemma {:induction false} PlainView(v: Option<StepRecord>, plain: seq<Action>, l: seq<Action>)
    requires ViewOf(l) == v && v.Some? && AllPlain(plain)
    ensures var w := ViewOf(l + plain); w.Some? && w.value.usage == v.value.usage
    decreases |plain|
  {
    if plain == [] {
      assert l + plain == l;
    } else {
      PlainView(v, Init(plain), l);
      ViewSnoc(l + Init(plain), Last(plain));
      assert l + Init(plain) + [Last(plain)] == l + plain;
    }
  }

  lemma FinishKeepsUsage(l: seq<Action>, a: Action, id: nat, ok: bool)
    requires ViewOf(l).Some? && IsFinish(a, id, ok)
    ensures RecordedCost(ViewOf(l + [a])) == RecordedCost(ViewOf(l))
  {
    ViewSnoc(l, a);
  }

  lemma PaymentRecordedOnce(l: seq<Action>, pay: seq<Action>, id: nat)
    requires ViewOf(l).Some? && |pay| == 2 && IsPayment(pay, id)
    ensures ViewOf(l + pay).Some? && RecordedCost(ViewOf(l + pay)) == Measure(pay, Cost)
  {
    PairMeasure(pay, Cost);
    ViewSnoc(l, pay[0]);
    ViewSnoc(l + [pay[0]], pay[1]);
    assert l + [pay[0]] + [pay[1]] == l + pay;
  }

  lemma StartView(a: Action, id: nat)
    requires IsStart(a, id)
    ensures ViewOf([a]).Some? && RecordedCost(ViewOf([a])) == 0.0 && ViewOf([a]).value.usage == None
  {
    ViewSnoc([], a);
    assert [] + [a] == [a];
  }

  /** A whole step's record carries exactly what was charged for it. */
  lemma WholeRecordCost(l: seq<Action>, id: nat, ok: bool)
    requires Whole(l, id, ok)
    ensures RecordedCost(ViewOf(l)) == Measure(l, Cost)
  {
    hide Weight, IsFinish, IsStart, CostIn;
    var plain, pay :| Shaped(l, id, ok, plain, pay);
    ShapedMeasure(l, id, ok, plain, pay, Cost);
    FinishFree(Last(l), id, ok);
    var head := [l[0]] + plain;
    StartView(l[0], id);
    PlainView(ViewOf([l[0]]), plain, [l[0]]);
    if pay == [] {
      assert head + pay == head;
    } else {
      PaymentRecordedOnce(head, pay, id);
    }
    FinishKeepsUsage(head + pay, Last(l), id, ok);
  }

  lemma FinishFree(a: Action, id: nat, ok: bool)
    requires IsFinish(a, id, ok)
    ensures Weight(a, Cost) == 0.0
  {
  }

  lemma StepRecordCost(l: seq<Action>, to: nat, id: nat)
    requires StepsIn(l, 1, to)
    ensures RecordedCost(StepRecordOf(JournalOf(l), id)) == Measure(Project(l, OfStep(id)), Cost)
  {
    hide RecordedCost, Whole;
    RecordIsView(l, id);
    var mine := Project(l, OfStep(id));
    if 1 <= id < to {
      if Whole(mine, id, true) { WholeRecordCost(mine, id, true); } else { WholeRecordCost(mine, id, false); }
    } else {
      NothingCosts();
    }
  }

  lemma NothingCosts()
    ensures RecordedCost(ViewOf([])) == 0.0 == Measure([], Cost)
  {
  }

  lemma {:induction false} JournalCostByStep(l: seq<Action>, to: nat, n: nat)
    requires StepsIn(l, 1, to)
    ensures JournalCost(l, n) == ByStep(l, n, Cost)
    decreases n
  {
    hide StepsIn, StepRecordOf, RecordedCost;
    if n > 0 {
      JournalCostByStep(l, to, n - 1);
      StepRecordCost(l, to, n - 1);
    }
  }

  /** Scheduler, Metrics and journal say the same cost after these actions. */
  ghost predicate CostsAgreeOn(l: seq<Action>, st: Progress) {
    Measure(l, Usage("cost_usd")) == Measure(l, Cost) == JournalCost(l, st.next) == st.cost
  }

  lemma StepsOfSchedule(l: seq<Action>, blocks: seq<Block>, to: nat)
    requires Linearizes(l, blocks) && AllSeparate(blocks) && StepsIn(Sequential(blocks), 1, to)
    ensures StepsIn(l, 1, to)
  {
    hide AllSeparate;
    forall id: nat ensures Project(l, OfStep(id)) == Project(Sequential(blocks), OfStep(id)) {
      LinearizationProjects(l, blocks, OfStep(id));
    }
  }

  lemma ScheduleCosts(st: Progress, l: seq<Action>)
    requires AllSeparate(st.blocks) && StepsIn(Sequential(st.blocks), 1, st.next) && st.cost == Measure(Sequential(st.blocks), Cost)
    requires Linearizes(l, st.blocks)
    ensures CostsAgreeOn(l, st)
  {
    hide StepsIn, StepsBelow, AllSeparate;
    var to := st.next;
    StepsOfSchedule(l, st.blocks, to);
    LinearizationMeasure(l, st.blocks, Cost);
    StepIdsBounded(l, to);
    MeasureByStep(l, to, Usage(COST));
    MeasureByStep(l, to, Cost);
    JournalCostByStep(l, to, to);
    NothingInFlight(l, to, to);
    StepsConserve(l, l, to, to);
  }

  /** At each fan-in, that is, whenever the loop arrives at an entry, the three agree on what was spent so far. */
  lemma CostsAgreeAtFanIn(cfg: Config, i: nat, st: Progress, l: seq<Action>)
    requires Arrives(cfg, i, st) && Linearizes(l, st.blocks)
    ensures CostsAgreeOn(l, st)
  {
    hide AllSeparate, CostsAgreeOn, StepsIn, Arrives;
    ArrivesOrderly(cfg, i, st);
    MovesSteps(Sequential(st.blocks), 1, st.next, true);
    ScheduleCosts(st, l);
  }

  /** And when the run is over. */
  lemma CostsAgree(cfg: Config, l: seq<Action>)
    requires Linearizes(l, Run(cfg).state.blocks)
    ensures CostsAgreeOn(l, Run(cfg).state)
  {
    hide Run, AllSeparate, CostsAgreeOn, StepsIn;
    RunIsOrderly(cfg);
    ScheduleCosts(Run(cfg).state, l);
  }

  lemma {:induction false} NothingInFlight(l: seq<Action>, to: nat, n: nat)
    requires StepsIn(l, 1, to)
    ensures InFlight(l, n) == 0.0
    decreases n
  {
    hide StepsIn, WholeStep, Pending, Project;
    if n > 0 {
      NothingInFlight(l, to, n - 1);
      NotPending(l, to, n - 1);
    }
  }

  lemma NotPending(l: seq<Action>, to: nat, id: nat)
    requires StepsIn(l, 1, to)
    ensures Pending(Project(l, OfStep(id))) == 0.0
  {
    hide WholeStep, Project;
    var mine := Project(l, OfStep(id));
    if 1 <= id < to {
      WholeEndsPaid(mine, id);
    }
  }

  lemma WholeEndsPaid(mine: seq<Action>, id: nat)
    requires WholeStep(mine, id)
    ensures Pending(mine) == 0.0
  {
    hide About, AllPlain, IsPayment;
    var ok := Whole(mine, id, true);
    var plain, pay :| Shaped(mine, id, ok, plain, pay);
    assert IsFinish(Last(mine), id, ok);
  }
}
