/** The two built-in strategies: what majority and unanimous agree on, and when they refuse. */
module Strategies {
  import opened Wrappers
  import opened Values
  import opened Runtime
  import opened Merges

  /**
   What Python's hash and == see of a value: True is 1 and False is 0, also inside tuples; lists and
   dicts cannot be hashed at all.
   */
  function Hashed(v: Value): Option<Value> {
    match v
    case Bool(b) => Some(Num(if b then 1.0 else 0.0))
    case Tuple(parts) =>
      if forall i | 0 <= i < |parts| :: Hashed(parts[i]).Some?
      then Some(Tuple(seq(|parts|, i requires 0 <= i < |parts| => Hashed(parts[i]).value)))
      else None
    case List(_) => None
    case Dict(_) => None
    case _ => Some(v)
  }

  predicate Same(a: Value, b: Value) {
    Hashed(a) == Hashed(b)
  }

  predicate AllHashable(outputs: seq<Value>) {
    forall i | 0 <= i < |outputs| :: Hashed(outputs[i]).Some?
  }

  datatype Tally = Tally(value: Value, count: nat)

  /** One more vote: the dict keeps the value it saw first. */
  function Counted(tallies: seq<Tally>, v: Value): seq<Tally> {
    if tallies == [] then [Tally(v, 1)]
    else if Same(tallies[0].value, v) then [tallies[0].(count := tallies[0].count + 1)] + tallies[1..]
    else [tallies[0]] + Counted(tallies[1..], v)
  }

  /** Counter(outputs), in order of insertion. */
  function Counter(outputs: seq<Value>): seq<Tally> {
    if outputs == [] then [] else Counted(Counter(Init(outputs)), Last(outputs))
  }

  function Placed(t: Tally, ranked: seq<Tally>): seq<Tally> {
    if ranked == [] then [t]
    else if ranked[0].count >= t.count then [ranked[0]] + Placed(t, ranked[1..])
    else [t] + ranked
  }

  /** most_common(): by count, descending and stable. */
  function Ranked(tallies: seq<Tally>): seq<Tally> {
    if tallies == [] then [] else Placed(Last(tallies), Ranked(Init(tallies)))
  }

  function Majority(outputs: seq<Value>): Verdict {
    var ranked := Ranked(Counter(outputs));
    if !AllHashable(outputs) then Disagreed(Exn("TypeError", "unhashable type"))
    else if ranked == [] then Disagreed(Exn("IndexError", "list index out of range"))
    else if |ranked| > 1 && ranked[0].count == ranked[1].count then Disagreed(Exn("ConsensusFailed", "no majority"))
    else Agreed(ranked[0].value, None)
  }

  function Distinct(outputs: seq<Value>): set<Option<Value>> {
    set i | 0 <= i < |outputs| :: Hashed(outputs[i])
  }

  function Unanimous(outputs: seq<Value>): Verdict {
    if !AllHashable(outputs) then Disagreed(Exn("TypeError", "unhashable type"))
    else if |Distinct(outputs)| > 1 then Disagreed(Exn("ConsensusFailed", "not unanimous"))
    else if outputs == [] then Disagreed(Exn("IndexError", "list index out of range"))
    else Agreed(outputs[0], None)
  }

  // ---------------------------------------------------------------- counting

  /** How many outputs equal v. */
  function Votes(outputs: seq<Value>, v: Value): nat {
    if outputs == [] then 0 else Votes(Init(outputs), v) + if Same(Last(outputs), v) then 1 else 0
  }

  /** The first output of its kind. */
  predicate FirstOfKind(outputs: seq<Value>, i: nat) {
    i < |outputs| && forall j | 0 <= j < i :: !Same(outputs[j], outputs[i])
  }

  ghost predicate IsFirst(outputs: seq<Value>, v: Value) {
    exists i: nat :: FirstOfKind(outputs, i) && outputs[i] == v
  }

  ghost predicate Apart(tallies: seq<Tally>) {
    forall i, j | 0 <= i < j < |tallies| :: !Same(tallies[i].value, tallies[j].value)
  }

  ghost predicate Covers(tallies: seq<Tally>, v: Value) {
    exists k :: 0 <= k < |tallies| && Same(tallies[k].value, v)
  }

  /** One tally per kind of output, with its votes and the first output of the kind. */
  ghost predicate Tallies(ts: seq<Tally>, outputs: seq<Value>) {
    && Apart(ts)
    && (forall k | 0 <= k < |ts| :: ts[k].count == Votes(outputs, ts[k].value) && IsFirst(outputs, ts[k].value))
    && (forall i | 0 <= i < |outputs| :: Covers(ts, outputs[i]))
  }

  /** Where the tally of v's kind is, or would be. */
  function Slot(ts: seq<Tally>, v: Value): (k: nat)
    ensures k <= |ts| && (k < |ts| ==> Same(ts[k].value, v)) && forall i | 0 <= i < k :: !Same(ts[i].value, v)
  {
    if ts == [] || Same(ts[0].value, v) then 0
    else
      assert ts == [ts[0]] + ts[1..];
      Slot(ts[1..], v) + 1
  }

  /** What a vote changes: the tally of its kind, or a new one at the end. */
  lemma {:induction false} CountedAt(ts: seq<Tally>, v: Value)
    ensures var k := Slot(ts, v);
      Counted(ts, v) == if k == |ts| then ts + [Tally(v, 1)] else ts[k := ts[k].(count := ts[k].count + 1)]
    decreases |ts|
  {
    hide Same;
    if ts != [] && !Same(ts[0].value, v) {
      CountedAt(ts[1..], v);
      assert ts == [ts[0]] + ts[1..];
    }
  }

  lemma VotesSame(outputs: seq<Value>, v: Value, w: Value)
    requires Same(v, w)
    ensures Votes(outputs, v) == Votes(outputs, w)
  {
  }

  lemma FirstStays(outputs: seq<Value>, more: Value, v: Value)
    requires IsFirst(outputs, v)
    ensures IsFirst(outputs + [more], v)
  {
    hide Same;
    var i: nat :| FirstOfKind(outputs, i) && outputs[i] == v;
    assert FirstOfKind(outputs + [more], i);
  }

  lemma {:induction false} NoVotes(outputs: seq<Value>, v: Value)
    requires forall i | 0 <= i < |outputs| :: !Same(outputs[i], v)
    ensures Votes(outputs, v) == 0
    decreases |outputs|
  {
    if outputs != [] { NoVotes(Init(outputs), v); }
  }

  lemma VotesSnoc(outputs: seq<Value>, v: Value, w: Value)
    ensures Votes(outputs + [v], w) == Votes(outputs, w) + if Same(v, w) then 1 else 0
  {
    assert Init(outputs + [v]) == outputs;
  }

  lemma NewKind(ts: seq<Tally>, outputs: seq<Value>, v: Value)
    requires Tallies(ts, outputs) && forall i | 0 <= i < |ts| :: !Same(ts[i].value, v)
    ensures Votes(outputs, v) == 0 && IsFirst(outputs + [v], v)
  {
    forall i | 0 <= i < |outputs| ensures !Same(outputs[i], v) {
      assert Covers(ts, outputs[i]);
    }
    NoVotes(outputs, v);
    var all := outputs + [v];
    forall j | 0 <= j < |outputs| ensures !Same(all[j], all[|outputs|]) {
      assert all[j] == outputs[j];
    }
    assert FirstOfKind(all, |outputs|);
  }

  lemma TalliesSnoc(ts: seq<Tally>, outputs: seq<Value>, v: Value)
    requires Tallies(ts, outputs)
    ensures Tallies(Counted(ts, v), outputs + [v])
  {
    hide IsFirst;
    CountedAt(ts, v);
    var k := Slot(ts, v);
    var us, all := Counted(ts, v), outputs + [v];
    if k == |ts| { NewKind(ts, outputs, v); }
    forall n | 0 <= n < |us| ensures us[n].count == Votes(all, us[n].value) && IsFirst(all, us[n].value) {
      VotesSnoc(outputs, v, us[n].value);
      if n < |ts| { FirstStays(outputs, v, ts[n].value); }
    }
    forall i | 0 <= i < |all| ensures Covers(us, all[i]) {
      if i < |outputs| {
        assert Covers(ts, outputs[i]);
        var n :| 0 <= n < |ts| && Same(ts[n].value, outputs[i]);
        assert Same(us[n].value, all[i]);
      } else {
        assert Same(us[k].value, v);
      }
    }
  }

  lemma {:induction false} CounterTallies(outputs: seq<Value>)
    ensures Tallies(Counter(outputs), outputs)
    decreases |outputs|
  {
    hide Tallies;
    if outputs == [] {
      NoTallies();
    } else {
      CounterTallies(Init(outputs));
      TalliesSnoc(Counter(Init(outputs)), Init(outputs), Last(outputs));
      assert Init(outputs) + [Last(outputs)] == outputs;
    }
  }

  lemma NoTallies()
    ensures Tallies([], [])
  {
  }

  // ---------------------------------------------------------------- ranking

  predicate Falling(ts: seq<Tally>) {
    forall i, j | 0 <= i < j < |ts| :: ts[i].count >= ts[j].count
  }

  lemma {:induction false} PlacedElements(t: Tally, ranked: seq<Tally>)
    ensures forall x :: x in Placed(t, ranked) <==> x == t || x in ranked
    ensures |Placed(t, ranked)| == |ranked| + 1
    decreases |ranked|
  {
    if ranked != [] {
      assert ranked == [ranked[0]] + ranked[1..];
      PlacedElements(t, ranked[1..]);
    }
  }

  lemma {:induction false} PlacedFalls(t: Tally, ranked: seq<Tally>)
    requires Falling(ranked) && Apart(ranked) && forall i | 0 <= i < |ranked| :: !Same(ranked[i].value, t.value)
    ensures Falling(Placed(t, ranked)) && Apart(Placed(t, ranked))
    decreases |ranked|
  {
    hide Same;
    if ranked != [] && ranked[0].count >= t.count {
      var rest := Placed(t, ranked[1..]);
      PlacedFalls(t, ranked[1..]);
      PlacedElements(t, ranked[1..]);
      forall j | 0 <= j < |rest| ensures ranked[0].count >= rest[j].count && !Same(ranked[0].value, rest[j].value) {
        assert rest[j] in rest;
      }
      SameSwaps();
    } else {
      SameSwaps();
    }
  }

  lemma SameSwaps()
    ensures forall a, b :: Same(a, b) <==> Same(b, a)
  {
  }

  lemma {:induction false} RankedFalls(ts: seq<Tally>)
    requires Apart(ts)
    ensures Falling(Ranked(ts)) && Apart(Ranked(ts)) && |Ranked(ts)| == |ts|
    ensures forall x :: x in Ranked(ts) <==> x in ts
    decreases |ts|
  {
    hide Same;
    if ts != [] {
      var init, last := Init(ts), Last(ts);
      RankedFalls(init);
      PlacedElements(last, Ranked(init));
      assert ts == init + [last];
      forall i | 0 <= i < |init| ensures !Same(Ranked(init)[i].value, last.value) {
        assert Ranked(init)[i] in init;
      }
      PlacedFalls(last, Ranked(init));
    }
  }

  // ---------------------------------------------------------------- what they agree on

  /** Output i is the first of its kind, and its kind has more votes than any other. */
  ghost predicate Wins(outputs: seq<Value>, i: nat) {
    && FirstOfKind(outputs, i)
    && forall j | 0 <= j < |outputs| && !Same(outputs[j], outputs[i]) :: Votes(outputs, outputs[j]) < Votes(outputs, outputs[i])
  }

  lemma FirstsAreOne(outputs: seq<Value>, i: nat, v: Value)
    requires FirstOfKind(outputs, i) && IsFirst(outputs, v) && Same(outputs[i], v)
    ensures outputs[i] == v
  {
    var k: nat :| FirstOfKind(outputs, k) && outputs[k] == v;
    assert k == i;
  }

  /** A winner's tally is ranked first, alone. */
  lemma WinnerLeads(outputs: seq<Value>, i: nat)
    requires AllHashable(outputs) && Wins(outputs, i)
    ensures Majority(outputs) == Agreed(outputs[i], None)
  {
    hide Same, Votes, IsFirst;
    var ts := Counter(outputs);
    var r := Ranked(ts);
    CounterTallies(outputs);
    RankedFalls(ts);
    assert Covers(ts, outputs[i]);
    var k :| 0 <= k < |ts| && Same(ts[k].value, outputs[i]);
    assert ts[k] in r;
    var at :| 0 <= at < |r| && r[at] == ts[k];
    VotesSame(outputs, ts[k].value, outputs[i]);
    FirstIsMost(r, at);
    forall n | 0 <= n < |r| && n != at ensures r[n].count < r[at].count {
      assert r[n] in ts;
      LoserTrails(outputs, i, r, n, at);
    }
    SameSwaps();
    FirstsAreOne(outputs, i, r[0].value);
  }

  lemma FirstIsMost(r: seq<Tally>, at: nat)
    requires Falling(r) && at < |r|
    ensures r[0].count >= r[at].count
  {
  }

  lemma LoserTrails(outputs: seq<Value>, i: nat, r: seq<Tally>, n: nat, at: nat)
    requires Wins(outputs, i) && Apart(r) && n < |r| && at < |r| && n != at && Same(r[at].value, outputs[i])
    requires r[n].count == Votes(outputs, r[n].value) && IsFirst(outputs, r[n].value)
    requires r[at].count == Votes(outputs, outputs[i])
    ensures r[n].count < r[at].count
  {
    hide Votes;
    var j: nat :| FirstOfKind(outputs, j) && outputs[j] == r[n].value;
    if n < at { assert !Same(r[n].value, r[at].value); } else { assert !Same(r[at].value, r[n].value); }
    assert !Same(outputs[j], outputs[i]);
  }

  /** Where an output's tally is ranked. */
  lemma RankOf(outputs: seq<Value>, j: nat) returns (at: nat)
    requires j < |outputs|
    ensures var r := Ranked(Counter(outputs));
      && at < |r| && Same(r[at].value, outputs[j]) && r[at].count == Votes(outputs, outputs[j])
      && Falling(r) && Apart(r) && IsFirst(outputs, r[at].value)
  {
    hide Same, Votes, IsFirst, Apart;
    var ts := Counter(outputs);
    CounterTallies(outputs);
    TalliesApart(ts, outputs);
    RankedFalls(ts);
    assert Covers(ts, outputs[j]);
    var k :| 0 <= k < |ts| && Same(ts[k].value, outputs[j]);
    assert ts[k] in Ranked(ts);
    at :| 0 <= at < |Ranked(ts)| && Ranked(ts)[at] == ts[k];
    VotesSame(outputs, ts[k].value, outputs[j]);
  }

  lemma TalliesApart(ts: seq<Tally>, outputs: seq<Value>)
    requires Tallies(ts, outputs)
    ensures Apart(ts)
  {
  }

  lemma LeaderIsFirst(outputs: seq<Value>) returns (i: nat)
    requires Ranked(Counter(outputs)) != []
    ensures FirstOfKind(outputs, i) && outputs[i] == Ranked(Counter(outputs))[0].value
  {
    hide Same, Votes, Apart;
    var ts := Counter(outputs);
    CounterTallies(outputs);
    TalliesApart(ts, outputs);
    RankedFalls(ts);
    assert Ranked(ts)[0] in ts;
    i :| FirstOfKind(outputs, i) && outputs[i] == Ranked(ts)[0].value;
  }

  lemma OthersTrail(outputs: seq<Value>, i: nat, j: nat)
    requires Majority(outputs).Agreed? && i < |outputs| && j < |outputs| && !Same(outputs[j], outputs[i])
    requires outputs[i] == Ranked(Counter(outputs))[0].value
    ensures Votes(outputs, outputs[j]) < Votes(outputs, outputs[i])
  {
    hide Same, Votes, IsFirst;
    var r := Ranked(Counter(outputs));
    var lead := RankOf(outputs, i);
    var at := RankOf(outputs, j);
    SameSwaps();
    assert lead == 0;
    assert r[1].count >= r[at].count;
  }

  /** If majority agrees on anything, some output wins. */
  lemma LeaderWins(outputs: seq<Value>) returns (i: nat)
    requires Majority(outputs).Agreed?
    ensures Wins(outputs, i)
  {
    hide Same, Votes, FirstOfKind;
    i := LeaderIsFirst(outputs);
    FirstWithin(outputs, i);
    forall j | 0 <= j < |outputs| && !Same(outputs[j], outputs[i]) ensures Votes(outputs, outputs[j]) < Votes(outputs, outputs[i]) {
      OthersTrail(outputs, i, j);
    }
  }

  lemma FirstWithin(outputs: seq<Value>, i: nat)
    requires FirstOfKind(outputs, i)
    ensures i < |outputs|
  {
  }

  /** majority agrees exactly when one kind of output has strictly the most votes, on the first of them. */
  lemma MajorityIffWinner(outputs: seq<Value>)
    requires AllHashable(outputs)
    ensures Majority(outputs).Agreed? <==> exists i: nat :: Wins(outputs, i)
    ensures forall i: nat | i < |outputs| && Wins(outputs, i) :: Majority(outputs) == Agreed(outputs[i], None)
  {
    hide Majority, Wins;
    if Majority(outputs).Agreed? {
      var i := LeaderWins(outputs);
    } else if i: nat :| Wins(outputs, i) {
      WinnerLeads(outputs, i);
    }
    forall i: nat | i < |outputs| && Wins(outputs, i) ensures Majority(outputs) == Agreed(outputs[i], None) { WinnerLeads(outputs, i); }
  }

  /** unanimous agrees exactly when there is an output and all are equal to it, on the first. */
  lemma UnanimousIff(outputs: seq<Value>)
    requires AllHashable(outputs)
    ensures Unanimous(outputs).Agreed? <==> outputs != [] && forall i | 0 <= i < |outputs| :: Same(outputs[i], outputs[0])
    ensures Unanimous(outputs).Agreed? ==> Unanimous(outputs) == Agreed(outputs[0], None)
  {
    if outputs != [] {
      var kinds := Distinct(outputs);
      assert Hashed(outputs[0]) in kinds;
      if forall i | 0 <= i < |outputs| :: Same(outputs[i], outputs[0]) {
        assert kinds == {Hashed(outputs[0])};
      } else {
        var i :| 0 <= i < |outputs| && !Same(outputs[i], outputs[0]);
        TwoKinds(kinds, Hashed(outputs[i]), Hashed(outputs[0]));
      }
    }
  }

  lemma TwoKinds<T>(kinds: set<T>, a: T, b: T)
    requires a in kinds && b in kinds && a != b
    ensures |kinds| > 1
  {
    assert {a, b} <= kinds;
    SubsetSize({a, b}, kinds);
  }

  lemma {:induction false} SubsetSize<T>(a: set<T>, b: set<T>)
    requires a <= b
    ensures |a| <= |b|
    decreases |a|
  {
    if a != {} {
      var x :| x in a;
      SubsetSize(a - {x}, b - {x});
    }
  }

  /** Where unanimous agrees, majority agrees on the same value. */
  lemma UnanimousIsMajority(outputs: seq<Value>)
    requires Unanimous(outputs).Agreed?
    ensures Majority(outputs) == Unanimous(outputs)
  {
    hide Votes, Majority;
    UnanimousIff(outputs);
    assert Wins(outputs, 0);
    WinnerLeads(outputs, 0);
  }

  // ---------------------------------------------------------------- the order of the votes

  lemma {:induction false} VotesFrom(a: seq<Value>, b: seq<Value>, v: Value)
    ensures Votes(a + b, v) == Votes(a, v) + Votes(b, v)
    decreases |b|
  {
    hide Same;
    if b == [] {
      assert a + b == a;
    } else {
      VotesFrom(a, Init(b), v);
      assert Init(a + b) == a + Init(b);
    }
  }

  lemma {:induction false} VotesPermute(a: seq<Value>, b: seq<Value>, v: Value)
    requires multiset(a) == multiset(b)
    ensures Votes(a, v) == Votes(b, v)
    decreases |a|
  {
    hide Same;
    if a == [] {
      assert |b| == |multiset(b)| == |multiset(a)|;
    } else {
      var last := Last(a);
      assert a == Init(a) + [last];
      assert last in multiset(b);
      var k :| 0 <= k < |b| && b[k] == last;
      WithoutOne(a, b, k);
      VotesPermute(Init(a), b[..k] + b[k + 1..], v);
      VotesAround(b, k, v);
    }
  }

  lemma WithoutOne(a: seq<Value>, b: seq<Value>, k: nat)
    requires a != [] && multiset(a) == multiset(b) && k < |b| && b[k] == Last(a)
    ensures multiset(Init(a)) == multiset(b[..k] + b[k + 1..])
  {
    assert a == Init(a) + [Last(a)];
    assert b == b[..k] + [b[k]] + b[k + 1..];
    assert multiset(Init(a)) == multiset(a) - multiset{Last(a)};
    assert multiset(b[..k] + b[k + 1..]) == multiset(b) - multiset{b[k]};
  }

  lemma VotesAround(b: seq<Value>, k: nat, v: Value)
    requires k < |b|
    ensures Votes(b, v) == Votes(b[..k] + b[k + 1..], v) + if Same(b[k], v) then 1 else 0
  {
    assert b == (b[..k] + [b[k]]) + b[k + 1..];
    VotesFrom(b[..k] + [b[k]], b[k + 1..], v);
    VotesSnoc(b[..k], b[k], v);
    VotesFrom(b[..k], b[k + 1..], v);
  }

  lemma WinsElsewhere(a: seq<Value>, b: seq<Value>, i: nat, k: nat)
    requires multiset(a) == multiset(b) && Wins(a, i) && FirstOfKind(b, k) && Same(b[k], a[i])
    ensures Wins(b, k)
  {
    hide Votes;
    forall j | 0 <= j < |b| && !Same(b[j], b[k]) ensures Votes(b, b[j]) < Votes(b, b[k]) {
      assert b[j] in multiset(a);
      var n :| 0 <= n < |a| && a[n] == b[j];
      VotesPermute(a, b, b[j]);
      VotesPermute(a, b, b[k]);
      VotesSame(a, b[k], a[i]);
    }
  }

  lemma {:induction false} FirstUpTo(b: seq<Value>, n: nat, v: Value) returns (k: nat)
    requires n < |b| && Same(b[n], v)
    ensures FirstOfKind(b, k) && Same(b[k], v)
    decreases n
  {
    if j :| 0 <= j < n && Same(b[j], v) {
      k := FirstUpTo(b, j, v);
    } else {
      k := n;
    }
  }

  /** The order of the votes decides at most which of equal values stands for the winner. */
  lemma OrderDoesNotDecide(a: seq<Value>, b: seq<Value>)
    requires multiset(a) == multiset(b) && Majority(a).Agreed?
    ensures Majority(b).Agreed? && Same(Majority(a).value, Majority(b).value)
  {
    hide Wins, Same, Majority;
    AgreedHashable(a);
    forall i | 0 <= i < |b| ensures Hashed(b[i]).Some? { assert b[i] in multiset(a); }
    var i := LeaderWins(a);
    WinnerLeads(a, i);
    WinsWithin(a, i);
    assert a[i] in multiset(b);
    var n :| 0 <= n < |b| && b[n] == a[i];
    Reflexive(a[i]);
    var k := FirstUpTo(b, n, a[i]);
    WinsElsewhere(a, b, i, k);
    WinnerLeads(b, k);
    SameSwaps();
  }

  lemma AgreedHashable(a: seq<Value>)
    requires Majority(a).Agreed?
    ensures AllHashable(a)
  {
  }

  lemma WinsWithin(a: seq<Value>, i: nat)
    requires Wins(a, i)
    ensures i < |a|
  {
  }

  lemma Reflexive(v: Value)
    ensures Same(v, v)
  {
  }

  // ---------------------------------------------------------------- Python's equality, and the refusals

  /** hash(v) works: no list and no dict, not even inside a tuple. */
  predicate Hashable(v: Value) {
    match v
    case List(_) => false
    case Dict(_) => false
    case Tuple(parts) => forall i | 0 <= i < |parts| :: Hashable(parts[i])
    case _ => true
  }

  function NumberOf(v: Value): Option<real> {
    match v
    case Num(x) => Some(x)
    case Bool(b) => Some(if b then 1.0 else 0.0)
    case _ => None
  }

  /** a == b: truth values count as numbers, tuples are compared part by part. */
  predicate PyEqual(a: Value, b: Value) {
    if NumberOf(a).Some? then NumberOf(a) == NumberOf(b)
    else match (a, b)
      case (Tuple(p), Tuple(q)) => |p| == |q| && forall i | 0 <= i < |p| :: PyEqual(p[i], q[i])
      case _ => a == b
  }

  lemma {:induction false} HashedIff(v: Value)
    ensures Hashed(v).Some? <==> Hashable(v)
    ensures Hashed(v).Some? ==> (v.Tuple? <==> Hashed(v).value.Tuple?) && NumberOf(Hashed(v).value) == NumberOf(v)
    decreases v
  {
    if v.Tuple? {
      forall i | 0 <= i < |v.parts| ensures Hashed(v.parts[i]).Some? <==> Hashable(v.parts[i]) { HashedIff(v.parts[i]); }
    }
  }

  /** What the strategies take for the same output is what Python calls equal. */
  lemma {:induction false} SameIff(a: Value, b: Value)
    requires Hashable(a) && Hashable(b)
    ensures Same(a, b) <==> PyEqual(a, b)
    decreases a
  {
    HashedIff(a);
    HashedIff(b);
    if a.Tuple? && b.Tuple? { TuplesSame(a, b); }
  }

  lemma {:induction false} TuplesSame(a: Value, b: Value)
    requires a.Tuple? && b.Tuple? && Hashable(a) && Hashable(b)
    ensures Same(a, b) <==> PyEqual(a, b)
    decreases a, 0
  {
    HashedIff(a);
    HashedIff(b);
    var p, q := a.parts, b.parts;
    var x, y := Hashed(a).value.parts, Hashed(b).value.parts;
    if |p| == |q| {
      forall i | 0 <= i < |p| ensures (x[i] == y[i] <==> PyEqual(p[i], q[i])) {
        HashedIff(p[i]);
        HashedIff(q[i]);
        SameIff(p[i], q[i]);
      }
      if PyEqual(a, b) { assert x == y; }
      if Same(a, b) { assert forall i | 0 <= i < |p| :: x[i] == y[i]; }
    }
  }

  /** How they refuse: outputs that cannot be hashed, no outputs at all, or votes that do not agree. */
  lemma RefusalsAre(outputs: seq<Value>)
    ensures var refusal := if exists i :: 0 <= i < |outputs| && !Hashable(outputs[i]) then "TypeError"
                           else if outputs == [] then "IndexError" else "ConsensusFailed";
      && (Majority(outputs).Disagreed? ==> Majority(outputs).exn.typeName == refusal)
      && (Unanimous(outputs).Disagreed? ==> Unanimous(outputs).exn.typeName == refusal)
  {
    hide Hashed, Hashable;
    forall i | 0 <= i < |outputs| ensures Hashed(outputs[i]).Some? <==> Hashable(outputs[i]) { HashedIff(outputs[i]); }
    if outputs != [] && AllHashable(outputs) {
      var at := RankOf(outputs, 0);
    }
    if outputs == [] { assert Distinct(outputs) == {} && Counter(outputs) == []; }
  }
}
