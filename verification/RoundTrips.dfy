/** Printing a representation and parsing the text gives the representation back. */
module RoundTrips {
  import opened Wrappers
  import opened Numerals
  import opened Lexers
  import opened Tokenizers
  import opened Decimals
  import opened Quoting
  import opened Grammars
  import opened Printers
  import opened Renderings
  import opened LexedTokens

  /** The tokens from pos on are these, wherever they stand in the text. */
  ghost predicate Spells(ts: seq<Token>, pos: nat, ls: seq<Lexeme>) {
    pos + |ls| <= |ts| && forall k | 0 <= k < |ls| :: ts[pos + k].kind == ls[k].kind && ts[pos + k].text == ls[k].text
  }

  lemma SpelledAt(ts: seq<Token>, pos: nat, ls: seq<Lexeme>, k: nat)
    requires Spells(ts, pos, ls) && k < |ls|
    ensures pos + k < |ts| && ts[pos + k].kind == ls[k].kind && ts[pos + k].text == ls[k].text
  {
  }

  lemma Split(ts: seq<Token>, pos: nat, a: seq<Lexeme>, b: seq<Lexeme>)
    requires Spells(ts, pos, a + b)
    ensures Spells(ts, pos, a) && Spells(ts, pos + |a|, b)
  {
    forall k | 0 <= k < |a| ensures ts[pos + k].kind == a[k].kind && ts[pos + k].text == a[k].text {
      assert (a + b)[k] == a[k];
    }
    forall k | 0 <= k < |b| ensures ts[pos + |a| + k].kind == b[k].kind && ts[pos + |a| + k].text == b[k].text {
      assert ts[pos + (|a| + k)].kind == (a + b)[|a| + k].kind;
    }
  }

  /** One token more. */
  lemma Next(ts: seq<Token>, pos: nat, l: Lexeme, rest: seq<Lexeme>)
    requires Stream(ts) && Spells(ts, pos, [l] + rest) && l.kind != EOF
    ensures At(ts, pos) && At(ts, pos + 1) && Spells(ts, pos + 1, rest)
    ensures ts[pos].kind == l.kind && ts[pos].text == l.text
    ensures Expect(ts, pos, l.kind) == Success(Parsed(l.text, pos + 1))
  {
    Split(ts, pos, [l], rest);
    SpelledAt(ts, pos, [l], 0);
    assert ts[pos + 0] == ts[pos];
  }

  // ---------------------------------------------------------------- names

  lemma {:induction false} NamesRound(ts: seq<Token>, pos: nat, acc: seq<string>, names: seq<string>)
    requires Stream(ts) && Spells(ts, pos, Names(names) + [CLOSE])
    ensures At(ts, pos) && NamesFrom(ts, pos, acc) == Success(Parsed(acc + names, pos + |names|))
    decreases |names|
  {
    hide Spells, Stream;
    if names == [] {
      assert Names(names) + [CLOSE] == [CLOSE] + [];
      Next(ts, pos, CLOSE, []);
      assert acc + names == acc;
    } else {
      assert Names(names) + [CLOSE] == [W(names[0])] + (Names(names[1..]) + [CLOSE]);
      Next(ts, pos, W(names[0]), Names(names[1..]) + [CLOSE]);
      NamesRound(ts, pos + 1, acc + [names[0]], names[1..]);
      assert acc + [names[0]] + names[1..] == acc + names;
    }
  }

  lemma BlockRound(ts: seq<Token>, pos: nat, names: seq<string>)
    requires Stream(ts) && Spells(ts, pos, Block(names))
    ensures At(ts, pos) && NameBlock(ts, pos) == Success(Parsed(names, pos + |Block(names)|))
    ensures At(ts, pos + |Block(names)|)
  {
    hide Spells, Stream;
    assert Block(names) == [OPEN] + (Names(names) + [CLOSE]);
    Next(ts, pos, OPEN, Names(names) + [CLOSE]);
    NamesRound(ts, pos + 1, [], names);
    assert [] + names == names;
    Split(ts, pos + 1, Names(names), [CLOSE]);
    assert [CLOSE] == [CLOSE] + [];
    Next(ts, pos + 1 + |names|, CLOSE, []);
  }

  /** A field that is missing, or a word and a value. */
  lemma FieldNext(ts: seq<Token>, pos: nat, word: string, value: Option<Lexeme>)
    requires Stream(ts) && Spells(ts, pos, MaybeField(word, value)) && (value.Some? ==> value.value.kind != EOF)
    ensures value.Some? ==>
      && At(ts, pos) && At(ts, pos + 1) && At(ts, pos + 2) && ts[pos].kind == Ident
      && Expect(ts, pos, Ident) == Success(Parsed(word, pos + 1))
      && Expect(ts, pos + 1, value.value.kind) == Success(Parsed(value.value.text, pos + 2))
  {
    hide Spells, Stream;
    if value.Some? {
      assert MaybeField(word, value) == [W(word)] + ([value.value] + []);
      Next(ts, pos, W(word), [value.value] + []);
      Next(ts, pos + 1, value.value, []);
    }
  }

  /** The word a construct starts with, and what is left of it. */
  lemma WordNext(ts: seq<Token>, pos: nat, word: string, rest: seq<Lexeme>)
    requires Stream(ts) && Spells(ts, pos, [W(word)] + rest)
    ensures At(ts, pos) && At(ts, pos + 1) && Spells(ts, pos + 1, rest)
    ensures AtWord(ts, pos, word) && ExpectWord(ts, pos, word) == Success(Parsed(word, pos + 1))
  {
    Next(ts, pos, W(word), rest);
  }

  lemma OpeningRound(ts: seq<Token>, pos: nat, word: string, name: string, tail: seq<Lexeme>)
    requires Stream(ts) && Spells(ts, pos, [W(word), W(name), OPEN] + tail)
    ensures At(ts, pos) && AtWord(ts, pos, word) && Opening(ts, pos, word) == Success(Parsed(name, pos + 3))
    ensures At(ts, pos + 3) && Spells(ts, pos + 3, tail)
  {
    hide Spells, Stream, Expect, ExpectWord;
    assert [W(word), W(name), OPEN] + tail == [W(word)] + ([W(name)] + ([OPEN] + tail));
    WordNext(ts, pos, word, [W(name)] + ([OPEN] + tail));
    Next(ts, pos + 1, W(name), [OPEN] + tail);
    Next(ts, pos + 2, OPEN, tail);
  }

  lemma BracesRound(ts: seq<Token>, pos: nat, word: string, tail: seq<Lexeme>)
    requires Stream(ts) && Spells(ts, pos, [W(word), OPEN] + tail)
    ensures At(ts, pos) && AtWord(ts, pos, word) && Braces(ts, pos, word) == Success(Parsed("{", pos + 2))
    ensures At(ts, pos + 1) && ts[pos + 1].kind == LBrace && ExpectWord(ts, pos, word) == Success(Parsed(word, pos + 1))
    ensures At(ts, pos + 2) && Spells(ts, pos + 2, tail)
  {
    hide Spells, Stream;
    assert [W(word), OPEN] + tail == [W(word)] + ([OPEN] + tail);
    WordNext(ts, pos, word, [OPEN] + tail);
    Next(ts, pos + 1, OPEN, tail);
  }

  // ---------------------------------------------------------------- agents

  /** `AgentFields` under a name that proofs can keep folded. */
  function AgentRest(ts: seq<Token>, pos: nat, acc: AgentIR): Parse<AgentIR>
    requires At(ts, pos)
  {
    AgentFields(ts, pos, acc)
  }

  /** Reading one field of an agent is a step of reading them all. */
  lemma AgentStep(ts: seq<Token>, pos: nat, acc: AgentIR, next: nat, more: AgentIR)
    requires At(ts, pos) && ts[pos].kind == Ident && AgentField(ts, pos, acc) == Success(Parsed(more, next))
    ensures At(ts, next) && AgentRest(ts, pos, acc) == AgentRest(ts, next, more)
  {
    hide AgentField;
  }

  lemma AgentProvider(ts: seq<Token>, pos: nat, acc: AgentIR, v: Option<string>)
    requires At(ts, pos) && Spells(ts, pos, MaybeField("provider", Named(v))) && acc.provider.None?
    ensures var n := pos + |MaybeField("provider", Named(v))|;
      At(ts, n) && AgentRest(ts, pos, acc) == AgentRest(ts, n, acc.(provider := v))
  {
    hide Spells, Stream, AgentRest;
    FieldNext(ts, pos, "provider", Named(v));
    if v.Some? { AgentStep(ts, pos, acc, pos + 2, acc.(provider := v)); }
  }

  lemma AgentModel(ts: seq<Token>, pos: nat, acc: AgentIR, v: Option<string>)
    requires At(ts, pos) && Spells(ts, pos, MaybeField("model", Named(v))) && acc.model.None?
    ensures var n := pos + |MaybeField("model", Named(v))|;
      At(ts, n) && AgentRest(ts, pos, acc) == AgentRest(ts, n, acc.(model := v))
  {
    hide Spells, Stream, AgentRest;
    FieldNext(ts, pos, "model", Named(v));
    if v.Some? { AgentStep(ts, pos, acc, pos + 2, acc.(model := v)); }
  }

  lemma AgentPrompt(ts: seq<Token>, pos: nat, acc: AgentIR, v: Option<string>)
    requires At(ts, pos) && Spells(ts, pos, MaybeField("prompt", Quoted(v))) && acc.prompt.None? && MaybeLine(v)
    ensures var n := pos + |MaybeField("prompt", Quoted(v))|;
      At(ts, n) && AgentRest(ts, pos, acc) == AgentRest(ts, n, acc.(prompt := v))
  {
    hide Spells, Stream, Quote, Unquote, AgentRest;
    FieldNext(ts, pos, "prompt", Quoted(v));
    if v.Some? {
      QuoteRoundTrip(v.value);
      AgentStep(ts, pos, acc, pos + 2, acc.(prompt := v));
    }
  }

  lemma AgentList(ts: seq<Token>, pos: nat, acc: AgentIR, word: string, names: seq<string>)
    requires At(ts, pos) && Spells(ts, pos, [W(word)] + Block(names)) && (word == "capabilities" || word == "tools")
    ensures var n := pos + 1 + |Block(names)|;
      At(ts, n) && AgentRest(ts, pos, acc) ==
        AgentRest(ts, n, if word == "tools" then acc.(tools := names) else acc.(capabilities := names))
  {
    hide Spells, Stream, Block, NameBlock, AgentRest;
    Next(ts, pos, W(word), Block(names));
    BlockRound(ts, pos + 1, names);
    AgentStep(ts, pos, acc, pos + 1 + |Block(names)|, if word == "tools" then acc.(tools := names) else acc.(capabilities := names));
  }

  lemma AgentFieldsRound(ts: seq<Token>, pos: nat, a: AgentIR)
    requires At(ts, pos) && Spells(ts, pos, AgentFieldsOf(a) + [CLOSE]) && FineAgent(a)
    ensures AgentRest(ts, pos, NewAgent(a.name)) == Success(Parsed(a, pos + |AgentFieldsOf(a)|))
    ensures Spells(ts, pos + |AgentFieldsOf(a)|, [CLOSE])
  {
    hide Spells, Stream, MaybeField, Block, Named, Quoted, AgentRest;
    Split(ts, pos, AgentFieldsOf(a), [CLOSE]);
    var f1, f2, f3 := MaybeField("provider", Named(a.provider)), MaybeField("model", Named(a.model)), MaybeField("prompt", Quoted(a.prompt));
    var f4, f5 := [W("capabilities")] + Block(a.capabilities), [W("tools")] + Block(a.tools);
    Split(ts, pos, f1, f2 + (f3 + (f4 + f5)));
    AgentProvider(ts, pos, NewAgent(a.name), a.provider);
    var p1, a1 := pos + |f1|, NewAgent(a.name).(provider := a.provider);
    Split(ts, p1, f2, f3 + (f4 + f5));
    AgentModel(ts, p1, a1, a.model);
    var p2, a2 := p1 + |f2|, a1.(model := a.model);
    Split(ts, p2, f3, f4 + f5);
    AgentPrompt(ts, p2, a2, a.prompt);
    var p3, a3 := p2 + |f3|, a2.(prompt := a.prompt);
    Split(ts, p3, f4, f5);
    AgentList(ts, p3, a3, "capabilities", a.capabilities);
    var p4, a4 := p3 + |f4|, a3.(capabilities := a.capabilities);
    AgentList(ts, p4, a4, "tools", a.tools);
    assert a4.(tools := a.tools) == a;
    AgentFieldsEnd(ts, p4 + |f5|, a);
  }

  lemma AgentFieldsEnd(ts: seq<Token>, pos: nat, a: AgentIR)
    requires At(ts, pos) && Spells(ts, pos, [CLOSE])
    ensures AgentRest(ts, pos, a) == Success(Parsed(a, pos))
  {
    SpelledAt(ts, pos, [CLOSE], 0);
    assert ts[pos + 0] == ts[pos];
  }

  lemma Closing(ts: seq<Token>, pos: nat)
    requires Stream(ts) && Spells(ts, pos, [CLOSE])
    ensures At(ts, pos) && Expect(ts, pos, RBrace) == Success(Parsed("}", pos + 1)) && At(ts, pos + 1)
  {
    hide Spells;
    assert [CLOSE] == [CLOSE] + [];
    Next(ts, pos, CLOSE, []);
  }

  lemma AgentRound(ts: seq<Token>, pos: nat, a: AgentIR)
    requires Stream(ts) && Spells(ts, pos, PrintAgent(a)) && FineAgent(a)
    ensures At(ts, pos) && Agent(ts, pos) == Success(Parsed(a, pos + |PrintAgent(a)|)) && At(ts, pos + |PrintAgent(a)|)
  {
    hide Spells, Stream, AgentFieldsOf, FineAgent, Expect, Opening;
    OpeningRound(ts, pos, "agent", a.name, AgentFieldsOf(a) + [CLOSE]);
    AgentFieldsRound(ts, pos + 3, a);
    Closing(ts, pos + 3 + |AgentFieldsOf(a)|);
  }

  // ---------------------------------------------------------------- policies

  /** `PolicyFields` under a name that proofs can keep folded. */
  function PolicyRest(ts: seq<Token>, pos: nat, acc: PolicyIR): Parse<PolicyIR>
    requires At(ts, pos)
  {
    PolicyFields(ts, pos, acc)
  }

  lemma PolicyStep(ts: seq<Token>, pos: nat, acc: PolicyIR, next: nat, more: PolicyIR)
    requires At(ts, pos) && ts[pos].kind == Ident && PolicyField(ts, pos, acc) == Success(Parsed(more, next))
    ensures At(ts, next) && PolicyRest(ts, pos, acc) == PolicyRest(ts, next, more)
  {
    hide PolicyField;
  }

  lemma PolicyCost(ts: seq<Token>, pos: nat, acc: PolicyIR, v: Option<Decimal>)
    requires At(ts, pos) && Spells(ts, pos, MaybeField("max_cost", Dollars(v))) && acc.maxCost.None? && MaybeNormal(v)
    ensures var n := pos + |MaybeField("max_cost", Dollars(v))|;
      At(ts, n) && PolicyRest(ts, pos, acc) == PolicyRest(ts, n, acc.(maxCost := v))
  {
    hide Spells, Stream, PolicyRest, PrintDecimal, ParseDecimal;
    FieldNext(ts, pos, "max_cost", Dollars(v));
    if v.Some? {
      DecimalRoundTrip(v.value);
      assert ("$" + PrintDecimal(v.value))[1..] == PrintDecimal(v.value);
      PolicyStep(ts, pos, acc, pos + 2, acc.(maxCost := v));
    }
  }

  lemma PolicyWidth(ts: seq<Token>, pos: nat, acc: PolicyIR, v: Option<nat>)
    requires At(ts, pos) && Spells(ts, pos, MaybeField("max_parallel", Counted(v))) && acc.maxParallel.None?
    ensures var n := pos + |MaybeField("max_parallel", Counted(v))|;
      At(ts, n) && PolicyRest(ts, pos, acc) == PolicyRest(ts, n, acc.(maxParallel := v))
  {
    hide Spells, Stream, PolicyRest, ParseDecimal, Truncate;
    FieldNext(ts, pos, "max_parallel", Counted(v));
    if v.Some? {
      IntegerRoundTrip(v.value);
      PolicyStep(ts, pos, acc, pos + 2, acc.(maxParallel := v));
    }
  }

  lemma PolicyTime(ts: seq<Token>, pos: nat, acc: PolicyIR, v: Option<Decimal>)
    requires At(ts, pos) && Spells(ts, pos, MaybeField("timeout", Timed(v))) && acc.maxRuntime.None? && MaybeNormal(v)
    ensures var n := pos + |MaybeField("timeout", Timed(v))|;
      At(ts, n) && PolicyRest(ts, pos, acc) == PolicyRest(ts, n, acc.(maxRuntime := v))
  {
    hide Spells, Stream, PolicyRest, PrintDuration, ParseDuration;
    FieldNext(ts, pos, "timeout", Timed(v));
    if v.Some? {
      DurationRoundTrip(v.value);
      PolicyStep(ts, pos, acc, pos + 2, acc.(maxRuntime := v));
    }
  }

  lemma PolicyApproval(ts: seq<Token>, pos: nat, acc: PolicyIR, name: string, rest: seq<Lexeme>)
    requires Stream(ts) && Spells(ts, pos, [W("approval"), W(name)] + rest)
    ensures At(ts, pos) && At(ts, pos + 2) && Spells(ts, pos + 2, rest)
    ensures PolicyRest(ts, pos, acc) == PolicyRest(ts, pos + 2, acc.(approvalFor := acc.approvalFor + [name]))
  {
    hide Spells, Stream, PolicyRest;
    assert [W("approval"), W(name)] + rest == [W("approval")] + ([W(name)] + rest);
    Next(ts, pos, W("approval"), [W(name)] + rest);
    Next(ts, pos + 1, W(name), rest);
    PolicyStep(ts, pos, acc, pos + 2, acc.(approvalFor := acc.approvalFor + [name]));
  }

  lemma PolicyEnd(ts: seq<Token>, pos: nat, acc: PolicyIR)
    requires Stream(ts) && Spells(ts, pos, [CLOSE])
    ensures At(ts, pos) && PolicyRest(ts, pos, acc) == Success(Parsed(acc, pos))
  {
    Closing(ts, pos);
  }

  lemma {:induction false} PolicyApprovals(ts: seq<Token>, pos: nat, acc: PolicyIR, names: seq<string>)
    requires Stream(ts) && Spells(ts, pos, Approvals(names) + [CLOSE])
    ensures At(ts, pos) && Spells(ts, pos + |Approvals(names)|, [CLOSE])
    ensures PolicyRest(ts, pos, acc) == Success(Parsed(acc.(approvalFor := acc.approvalFor + names), pos + |Approvals(names)|))
    decreases |names|
  {
    hide Spells, Stream, PolicyRest;
    if names == [] {
      assert Approvals(names) + [CLOSE] == [CLOSE] && acc.approvalFor + names == acc.approvalFor;
      PolicyEnd(ts, pos, acc);
    } else {
      var rest := Approvals(names[1..]) + [CLOSE];
      assert Approvals(names) + [CLOSE] == [W("approval"), W(names[0])] + rest;
      PolicyApproval(ts, pos, acc, names[0], rest);
      PolicyApprovals(ts, pos + 2, acc.(approvalFor := acc.approvalFor + [names[0]]), names[1..]);
      assert acc.approvalFor + [names[0]] + names[1..] == acc.approvalFor + names;
    }
  }

  lemma PolicyFieldsRound(ts: seq<Token>, pos: nat, p: PolicyIR)
    requires At(ts, pos) && Spells(ts, pos, PolicyFieldsOf(p) + [CLOSE]) && FinePolicy(p)
    ensures PolicyRest(ts, pos, NO_POLICY) == Success(Parsed(p, pos + |PolicyFieldsOf(p)|))
    ensures Spells(ts, pos + |PolicyFieldsOf(p)|, [CLOSE])
  {
    hide Spells, Stream, MaybeField, Dollars, Counted, Timed, PolicyRest;
    var f1, f2, f3 := MaybeField("max_cost", Dollars(p.maxCost)), MaybeField("max_parallel", Counted(p.maxParallel)), MaybeField("timeout", Timed(p.maxRuntime));
    var f4 := Approvals(p.approvalFor);
    assert PolicyFieldsOf(p) + [CLOSE] == f1 + (f2 + (f3 + (f4 + [CLOSE])));
    Split(ts, pos, f1, f2 + (f3 + (f4 + [CLOSE])));
    PolicyCost(ts, pos, NO_POLICY, p.maxCost);
    var p1, a1 := pos + |f1|, NO_POLICY.(maxCost := p.maxCost);
    Split(ts, p1, f2, f3 + (f4 + [CLOSE]));
    PolicyWidth(ts, p1, a1, p.maxParallel);
    var p2, a2 := p1 + |f2|, a1.(maxParallel := p.maxParallel);
    Split(ts, p2, f3, f4 + [CLOSE]);
    PolicyTime(ts, p2, a2, p.maxRuntime);
    var p3, a3 := p2 + |f3|, a2.(maxRuntime := p.maxRuntime);
    PolicyApprovals(ts, p3, a3, p.approvalFor);
    assert [] + p.approvalFor == p.approvalFor;
  }

  lemma PolicyParts(ts: seq<Token>, pos: nat, open: nat, p: PolicyIR, n: nat)
    requires At(ts, pos) && Braces(ts, pos, "policy") == Success(Parsed("{", open))
    requires PolicyRest(ts, open, NO_POLICY) == Success(Parsed(p, n))
    requires Expect(ts, n, RBrace) == Success(Parsed("}", n + 1))
    ensures Policy(ts, pos) == Success(Parsed(p, n + 1))
  {
    hide Braces, Expect;
  }

  lemma PolicyRound(ts: seq<Token>, pos: nat, p: PolicyIR)
    requires Stream(ts) && Spells(ts, pos, PrintPolicy(p)) && FinePolicy(p)
    ensures At(ts, pos) && Policy(ts, pos) == Success(Parsed(p, pos + |PrintPolicy(p)|)) && At(ts, pos + |PrintPolicy(p)|)
  {
    hide Spells, Stream, PolicyFieldsOf, FinePolicy, Expect, Braces, PolicyRest, Policy;
    BracesRound(ts, pos, "policy", PolicyFieldsOf(p) + [CLOSE]);
    PolicyFieldsRound(ts, pos + 2, p);
    Closing(ts, pos + 2 + |PolicyFieldsOf(p)|);
    PolicyParts(ts, pos, pos + 2, p, pos + 2 + |PolicyFieldsOf(p)|);
  }

  // ---------------------------------------------------------------- statements without a body

  lemma ParallelRound(ts: seq<Token>, pos: nat, members: seq<string>)
    requires Stream(ts) && Spells(ts, pos, [W("parallel")] + Block(members)) && |members| >= 2
    ensures At(ts, pos) && AtWord(ts, pos, "parallel")
    ensures Parallel(ts, pos) == Success(Parsed(ParallelStmt(members), pos + 1 + |Block(members)|))
    ensures At(ts, pos + 1 + |Block(members)|)
  {
    hide Spells, Stream, Block, NameBlock;
    WordNext(ts, pos, "parallel", Block(members));
    BlockRound(ts, pos + 1, members);
  }

  function ChoiceRest(ts: seq<Token>, pos: nat, acc: Choice): Parse<Choice>
    requires At(ts, pos)
  {
    ChoiceFields(ts, pos, acc)
  }

  lemma ChoiceStep(ts: seq<Token>, pos: nat, acc: Choice, next: nat, more: Choice)
    requires At(ts, pos) && ts[pos].kind == Ident && ChoiceField(ts, pos, acc) == Success(Parsed(more, next))
    ensures At(ts, next) && ChoiceRest(ts, pos, acc) == ChoiceRest(ts, next, more)
  {
    hide ChoiceField;
  }

  lemma ChoiceEnd(ts: seq<Token>, pos: nat, acc: Choice)
    requires Stream(ts) && Spells(ts, pos, [CLOSE])
    ensures At(ts, pos) && ChoiceRest(ts, pos, acc) == Success(Parsed(acc, pos))
  {
    Closing(ts, pos);
  }

  lemma ChoiceMode(ts: seq<Token>, pos: nat, acc: Choice, v: Option<string>)
    requires At(ts, pos) && Spells(ts, pos, MaybeField("mode", Named(v))) && acc.mode.None? && (v.Some? ==> v.value in MODES)
    ensures var n := pos + |MaybeField("mode", Named(v))|;
      At(ts, n) && ChoiceRest(ts, pos, acc) == ChoiceRest(ts, n, acc.(mode := v))
  {
    hide Spells, Stream, ChoiceRest;
    FieldNext(ts, pos, "mode", Named(v));
    if v.Some? { ChoiceStep(ts, pos, acc, pos + 2, acc.(mode := v)); }
  }

  lemma ChoiceConfidence(ts: seq<Token>, pos: nat, acc: Choice, v: bool)
    requires var f := MaybeField("confidence", if v then Some(W("true")) else None); At(ts, pos) && Spells(ts, pos, f)
    requires !acc.confidence
    ensures var n := pos + |MaybeField("confidence", if v then Some(W("true")) else None)|;
      At(ts, n) && ChoiceRest(ts, pos, acc) == ChoiceRest(ts, n, acc.(confidence := v))
  {
    hide Spells, Stream, ChoiceRest;
    FieldNext(ts, pos, "confidence", if v then Some(W("true")) else None);
    if v { ChoiceStep(ts, pos, acc, pos + 2, acc.(confidence := true)); }
  }

  lemma ChoiceFieldsRound(ts: seq<Token>, pos: nat, strategy: string, mode: Option<string>, confidence: bool)
    requires Stream(ts) && Spells(ts, pos, ChoiceFieldsOf(strategy, mode, confidence) + [CLOSE])
    requires strategy in STRATEGIES && (mode.Some? ==> mode.value in MODES)
    ensures var n := pos + |ChoiceFieldsOf(strategy, mode, confidence)|;
      && At(ts, pos) && Spells(ts, n, [CLOSE])
      && ChoiceRest(ts, pos, Choice(None, None, false)) == Success(Parsed(Choice(Some(strategy), mode, confidence), n))
  {
    hide Spells, Stream, MaybeField, Named, ChoiceRest;
    var f2, f3 := MaybeField("mode", Named(mode)), MaybeField("confidence", if confidence then Some(W("true")) else None);
    assert ChoiceFieldsOf(strategy, mode, confidence) + [CLOSE] == [W("strategy")] + ([W(strategy)] + (f2 + (f3 + [CLOSE])));
    Next(ts, pos, W("strategy"), [W(strategy)] + (f2 + (f3 + [CLOSE])));
    Next(ts, pos + 1, W(strategy), f2 + (f3 + [CLOSE]));
    ChoiceStep(ts, pos, Choice(None, None, false), pos + 2, Choice(Some(strategy), None, false));
    Split(ts, pos + 2, f2, f3 + [CLOSE]);
    ChoiceMode(ts, pos + 2, Choice(Some(strategy), None, false), mode);
    var p := pos + 2 + |f2|;
    Split(ts, p, f3, [CLOSE]);
    ChoiceConfidence(ts, p, Choice(Some(strategy), mode, false), confidence);
    ChoiceEnd(ts, p + |f3|, Choice(Some(strategy), mode, confidence));
  }

  lemma ConsensusRound(ts: seq<Token>, pos: nat, s: Stmt)
    requires Stream(ts) && s.ConsensusStmt? && Spells(ts, pos, PrintStmt(s)) && FineStmt(s)
    ensures At(ts, pos) && AtWord(ts, pos, "consensus")
    ensures Consensus(ts, pos) == Success(Parsed(s, pos + |PrintStmt(s)|)) && At(ts, pos + |PrintStmt(s)|)
  {
    hide Spells, Stream, ChoiceFieldsOf, Expect, ExpectWord, Braces;
    BracesRound(ts, pos, "consensus", ChoiceFieldsOf(s.strategy, s.mode, s.confidence) + [CLOSE]);
    ChoiceFieldsRound(ts, pos + 2, s.strategy, s.mode, s.confidence);
    Closing(ts, pos + 2 + |ChoiceFieldsOf(s.strategy, s.mode, s.confidence)|);
  }

  function ArtifactRest(ts: seq<Token>, pos: nat, acc: Stmt): Parse<Stmt>
    requires At(ts, pos) && acc.ArtifactStmt?
  {
    ArtifactFields(ts, pos, acc)
  }

  lemma ArtifactStep(ts: seq<Token>, pos: nat, acc: Stmt, next: nat, more: Stmt)
    requires At(ts, pos) && acc.ArtifactStmt? && ts[pos].kind == Ident && ArtifactField(ts, pos, acc) == Success(Parsed(more, next))
    ensures At(ts, next) && more.ArtifactStmt? && ArtifactRest(ts, pos, acc) == ArtifactRest(ts, next, more)
  {
    hide ArtifactField;
  }

  lemma ArtifactType(ts: seq<Token>, pos: nat, acc: Stmt, v: Option<string>)
    requires At(ts, pos) && Spells(ts, pos, MaybeField("type", Named(v))) && acc.ArtifactStmt? && acc.type_.None?
    ensures var n := pos + |MaybeField("type", Named(v))|;
      At(ts, n) && ArtifactRest(ts, pos, acc) == ArtifactRest(ts, n, acc.(type_ := v))
  {
    hide Spells, Stream, ArtifactRest;
    FieldNext(ts, pos, "type", Named(v));
    if v.Some? { ArtifactStep(ts, pos, acc, pos + 2, acc.(type_ := v)); }
  }

  lemma ArtifactSchema(ts: seq<Token>, pos: nat, acc: Stmt, v: Option<string>)
    requires At(ts, pos) && Spells(ts, pos, MaybeField("schema", Named(v))) && acc.ArtifactStmt? && acc.schema.None?
    ensures var n := pos + |MaybeField("schema", Named(v))|;
      At(ts, n) && ArtifactRest(ts, pos, acc) == ArtifactRest(ts, n, acc.(schema := v))
  {
    hide Spells, Stream, ArtifactRest;
    FieldNext(ts, pos, "schema", Named(v));
    if v.Some? { ArtifactStep(ts, pos, acc, pos + 2, acc.(schema := v)); }
  }

  lemma ArtifactEnd(ts: seq<Token>, pos: nat, acc: Stmt)
    requires Stream(ts) && Spells(ts, pos, [CLOSE]) && acc.ArtifactStmt?
    ensures At(ts, pos) && ArtifactRest(ts, pos, acc) == Success(Parsed(acc, pos))
  {
    Closing(ts, pos);
  }

  lemma ArtifactFieldsRound(ts: seq<Token>, pos: nat, s: Stmt)
    requires At(ts, pos) && s.ArtifactStmt? && Spells(ts, pos, ArtifactFieldsOf(s.type_, s.schema) + [CLOSE])
    ensures var n := pos + |ArtifactFieldsOf(s.type_, s.schema)|;
      Spells(ts, n, [CLOSE]) && ArtifactRest(ts, pos, ArtifactStmt(s.name, None, None)) == Success(Parsed(s, n))
  {
    hide Spells, Stream, MaybeField, Named, ArtifactRest;
    var f1, f2 := MaybeField("type", Named(s.type_)), MaybeField("schema", Named(s.schema));
    assert ArtifactFieldsOf(s.type_, s.schema) + [CLOSE] == f1 + (f2 + [CLOSE]);
    Split(ts, pos, f1, f2 + [CLOSE]);
    ArtifactType(ts, pos, ArtifactStmt(s.name, None, None), s.type_);
    Split(ts, pos + |f1|, f2, [CLOSE]);
    ArtifactSchema(ts, pos + |f1|, ArtifactStmt(s.name, s.type_, None), s.schema);
    ArtifactEnd(ts, pos + |f1| + |f2|, s);
  }

  lemma ArtifactHead(ts: seq<Token>, pos: nat, name: string, tail: seq<Lexeme>)
    requires Stream(ts) && Spells(ts, pos, [W("artifact"), W(name), OPEN] + tail)
    ensures At(ts, pos) && AtWord(ts, pos, "artifact") && ExpectWord(ts, pos, "artifact") == Success(Parsed("artifact", pos + 1))
    ensures At(ts, pos + 1) && Expect(ts, pos + 1, Ident) == Success(Parsed(name, pos + 2))
    ensures At(ts, pos + 2) && ts[pos + 2].kind == LBrace && At(ts, pos + 3) && Spells(ts, pos + 3, tail)
  {
    hide Spells, Stream;
    assert [W("artifact"), W(name), OPEN] + tail == [W("artifact")] + ([W(name)] + ([OPEN] + tail));
    WordNext(ts, pos, "artifact", [W(name)] + ([OPEN] + tail));
    Next(ts, pos + 1, W(name), [OPEN] + tail);
    Next(ts, pos + 2, OPEN, tail);
  }

  lemma ArtifactRound(ts: seq<Token>, pos: nat, s: Stmt)
    requires Stream(ts) && s.ArtifactStmt? && Spells(ts, pos, PrintStmt(s)) && FineStmt(s)
    ensures At(ts, pos) && AtWord(ts, pos, "artifact")
    ensures Artifact(ts, pos) == Success(Parsed(s, pos + |PrintStmt(s)|)) && At(ts, pos + |PrintStmt(s)|)
  {
    hide Spells, Stream, ArtifactFieldsOf, Expect, ExpectWord;
    ArtifactHead(ts, pos, s.name, ArtifactFieldsOf(s.type_, s.schema) + [CLOSE]);
    ArtifactFieldsRound(ts, pos + 3, s);
    Closing(ts, pos + 3 + |ArtifactFieldsOf(s.type_, s.schema)|);
  }

  lemma LetRound(ts: seq<Token>, pos: nat, s: Stmt)
    requires Stream(ts) && s.LetStmt? && Spells(ts, pos, PrintStmt(s))
    ensures At(ts, pos) && AtWord(ts, pos, "let")
    ensures Let(ts, pos) == Success(Parsed(s, pos + |PrintStmt(s)|)) && At(ts, pos + |PrintStmt(s)|)
  {
    hide Spells, Stream;
    var eq := Lexeme(Equals, "=");
    assert PrintStmt(s) == [W("let")] + ([W(s.name)] + ([eq] + ([W("artifact")] + ([W(s.artifact)] + []))));
    WordNext(ts, pos, "let", [W(s.name)] + ([eq] + ([W("artifact")] + ([W(s.artifact)] + []))));
    Next(ts, pos + 1, W(s.name), [eq] + ([W("artifact")] + ([W(s.artifact)] + [])));
    Next(ts, pos + 2, eq, [W("artifact")] + ([W(s.artifact)] + []));
    WordNext(ts, pos + 3, "artifact", [W(s.artifact)] + []);
    Next(ts, pos + 4, W(s.artifact), []);
  }

  function ApprovalRest(ts: seq<Token>, pos: nat, acc: Option<string>): Parse<Option<string>>
    requires At(ts, pos)
  {
    ApprovalFields(ts, pos, acc)
  }

  lemma ApprovalMessage(ts: seq<Token>, pos: nat, v: Option<string>)
    requires At(ts, pos) && Spells(ts, pos, MaybeField("message", Quoted(v))) && MaybeLine(v)
    ensures var n := pos + |MaybeField("message", Quoted(v))|;
      At(ts, n) && ApprovalRest(ts, pos, None) == ApprovalRest(ts, n, v)
  {
    hide Spells, Stream, Quote, Unquote;
    FieldNext(ts, pos, "message", Quoted(v));
    if v.Some? { QuoteRoundTrip(v.value); }
  }

  lemma ApprovalEnd(ts: seq<Token>, pos: nat, acc: Option<string>)
    requires Stream(ts) && Spells(ts, pos, [CLOSE])
    ensures At(ts, pos) && ApprovalRest(ts, pos, acc) == Success(Parsed(acc, pos))
  {
    Closing(ts, pos);
  }

  lemma ApprovalRound(ts: seq<Token>, pos: nat, s: Stmt)
    requires Stream(ts) && s.ApprovalStmt? && Spells(ts, pos, PrintStmt(s)) && FineStmt(s)
    ensures At(ts, pos) && AtWord(ts, pos, "approval")
    ensures Approval(ts, pos) == Success(Parsed(s, pos + |PrintStmt(s)|)) && At(ts, pos + |PrintStmt(s)|)
  {
    hide Spells, Stream, MaybeField, Quoted, Expect, Braces;
    var f := MaybeField("message", Quoted(s.message));
    BracesRound(ts, pos, "approval", f + [CLOSE]);
    Split(ts, pos + 2, f, [CLOSE]);
    ApprovalMessage(ts, pos + 2, s.message);
    ApprovalEnd(ts, pos + 2 + |f|, s.message);
    Closing(ts, pos + 2 + |f|);
  }

  lemma OperatorRound(ts: seq<Token>, pos: nat, op: string, rest: seq<Lexeme>)
    requires Stream(ts) && Spells(ts, pos, [OperatorLexeme(op)] + rest) && op in COMPARATORS
    ensures At(ts, pos) && Operator(ts, pos) == Success(Parsed(op, pos + 1)) && At(ts, pos + 1) && Spells(ts, pos + 1, rest)
  {
    Next(ts, pos, OperatorLexeme(op), rest);
  }

  // ---------------------------------------------------------------- bodies

  /** `BodyFrom` under a name that proofs can keep folded. */
  function BodyRest(ts: seq<Token>, pos: nat, acc: seq<Stmt>): Parse<seq<Stmt>>
    requires At(ts, pos)
  {
    BodyFrom(ts, pos, acc)
  }

  /** The statement at pos is s, and n is where the next one starts. */
  ghost predicate StatementIs(ts: seq<Token>, pos: nat, s: Stmt, n: nat) {
    At(ts, pos) && At(ts, n) && ts[pos].kind == Ident && Statement(ts, pos) == Success(Parsed(s, n))
  }

  lemma BodyStep(ts: seq<Token>, pos: nat, acc: seq<Stmt>, s: Stmt, n: nat)
    requires StatementIs(ts, pos, s, n)
    ensures At(ts, pos) && At(ts, n) && BodyRest(ts, pos, acc) == BodyRest(ts, n, acc + [s])
  {
    hide Stream;
  }

  lemma BodyEnd(ts: seq<Token>, pos: nat, acc: seq<Stmt>)
    requires Stream(ts) && Spells(ts, pos, [CLOSE])
    ensures At(ts, pos) && BodyRest(ts, pos, acc) == Success(Parsed(acc, pos))
  {
    Closing(ts, pos);
  }

  lemma ConditionRound(ts: seq<Token>, pos: nat, s: Stmt)
    requires Stream(ts) && s.IfStmt? && Spells(ts, pos, PrintStmt(s)) && FineStmt(s)
    ensures At(ts, pos) && AtWord(ts, pos, "if") && At(ts, pos + 5)
    ensures Condition(ts, pos) == Success(Parsed(Test(s.field, s.op, s.value), pos + 5))
    ensures Spells(ts, pos + 5, PrintBody(s.then_) + [CLOSE]) && |PrintStmt(s)| == 6 + |PrintBody(s.then_)|
  {
    hide Spells, Stream, PrintDecimal, ParseDecimal, Operator, Expect, ExpectWord;
    var tail := PrintBody(s.then_) + [CLOSE];
    var op, number := OperatorLexeme(s.op), Lexeme(Number, PrintDecimal(s.value));
    assert PrintStmt(s) == [W("if")] + ([W(s.field)] + ([op] + ([number] + ([OPEN] + tail))));
    WordNext(ts, pos, "if", [W(s.field)] + ([op] + ([number] + ([OPEN] + tail))));
    Next(ts, pos + 1, W(s.field), [op] + ([number] + ([OPEN] + tail)));
    OperatorRound(ts, pos + 2, s.op, [number] + ([OPEN] + tail));
    Next(ts, pos + 3, number, [OPEN] + tail);
    Next(ts, pos + 4, OPEN, tail);
    DecimalRoundTrip(s.value);
  }

  lemma IfParts(ts: seq<Token>, pos: nat, s: Stmt, open: nat, n: nat)
    requires s.IfStmt? && At(ts, pos) && Condition(ts, pos) == Success(Parsed(Test(s.field, s.op, s.value), open))
    requires BodyRest(ts, open, []) == Success(Parsed(s.then_, n))
    requires Expect(ts, n, RBrace) == Success(Parsed("}", n + 1))
    ensures If(ts, pos) == Success(Parsed(s, n + 1))
  {
    hide Condition, Expect;
  }

  lemma {:induction false} IfRound(ts: seq<Token>, pos: nat, s: Stmt)
    requires Stream(ts) && s.IfStmt? && Spells(ts, pos, PrintStmt(s)) && FineStmt(s)
    ensures At(ts, pos) && AtWord(ts, pos, "if")
    ensures If(ts, pos) == Success(Parsed(s, pos + |PrintStmt(s)|)) && At(ts, pos + |PrintStmt(s)|)
    decreases s, 0
  {
    hide Spells, Stream, Condition, Expect, BodyRest;
    ConditionRound(ts, pos, s);
    BodyRound(ts, pos + 5, [], s.then_);
    assert [] + s.then_ == s.then_;
    Closing(ts, pos + 5 + |PrintBody(s.then_)|);
    IfParts(ts, pos, s, pos + 5, pos + 5 + |PrintBody(s.then_)|);
  }

  lemma {:induction false} BodyRound(ts: seq<Token>, pos: nat, acc: seq<Stmt>, body: seq<Stmt>)
    requires Stream(ts) && Spells(ts, pos, PrintBody(body) + [CLOSE]) && FineBody(body)
    ensures At(ts, pos) && Spells(ts, pos + |PrintBody(body)|, [CLOSE])
    ensures BodyRest(ts, pos, acc) == Success(Parsed(acc + body, pos + |PrintBody(body)|))
    decreases body, 2
  {
    hide Spells, Stream, BodyRest, StatementIs;
    if body == [] {
      assert PrintBody(body) + [CLOSE] == [CLOSE] && acc + body == acc;
      BodyEnd(ts, pos, acc);
    } else {
      var rest := PrintBody(body[1..]) + [CLOSE];
      var n := pos + |PrintStmt(body[0])|;
      assert PrintBody(body) + [CLOSE] == PrintStmt(body[0]) + rest;
      Split(ts, pos, PrintStmt(body[0]), rest);
      StatementRound(ts, pos, body[0]);
      BodyStep(ts, pos, acc, body[0], n);
      BodyRound(ts, n, acc + [body[0]], body[1..]);
      assert acc + [body[0]] + body[1..] == acc + body;
    }
  }

  lemma {:induction false} StatementRound(ts: seq<Token>, pos: nat, s: Stmt)
    requires Stream(ts) && Spells(ts, pos, PrintStmt(s)) && FineStmt(s)
    ensures StatementIs(ts, pos, s, pos + |PrintStmt(s)|)
    decreases s, 1
  {
    hide Spells, Stream, Block, If, Parallel, Consensus, Artifact, Let, Approval;
    match s
    case StepStmt(ref) => StepRound(ts, pos, ref);
    case RefStmt(name) => RefRound(ts, pos, name);
    case ParallelStmt(members) => ParallelRound(ts, pos, members);
    case ConsensusStmt(_, _, _) => ConsensusRound(ts, pos, s);
    case ArtifactStmt(_, _, _) => ArtifactRound(ts, pos, s);
    case IfStmt(_, _, _, _) => IfRound(ts, pos, s);
    case LetStmt(_, _) => LetRound(ts, pos, s);
    case ApprovalStmt(_) => ApprovalRound(ts, pos, s);
    case MemoryStmt(scope) => MemoryRound(ts, pos, scope);
  }

  lemma StepRound(ts: seq<Token>, pos: nat, ref: string)
    requires Stream(ts) && Spells(ts, pos, [W("step"), W(ref)])
    ensures StatementIs(ts, pos, StepStmt(ref), pos + 2)
  {
    hide Spells, Stream;
    assert [W("step"), W(ref)] == [W("step")] + ([W(ref)] + []);
    WordNext(ts, pos, "step", [W(ref)] + []);
    Next(ts, pos + 1, W(ref), []);
  }

  lemma RefRound(ts: seq<Token>, pos: nat, name: string)
    requires Stream(ts) && Spells(ts, pos, [W(name)]) && name !in STATEMENTS
    ensures StatementIs(ts, pos, RefStmt(name), pos + 1)
  {
    hide Spells, Stream;
    assert [W(name)] == [W(name)] + [];
    Next(ts, pos, W(name), []);
  }

  lemma MemoryRound(ts: seq<Token>, pos: nat, scope: string)
    requires Stream(ts) && Spells(ts, pos, [W("memory"), W(scope)]) && scope in SCOPES
    ensures StatementIs(ts, pos, MemoryStmt(scope), pos + 2)
  {
    hide Spells, Stream;
    assert [W("memory"), W(scope)] == [W("memory")] + ([W(scope)] + []);
    WordNext(ts, pos, "memory", [W(scope)] + []);
    Next(ts, pos + 1, W(scope), []);
  }
}
