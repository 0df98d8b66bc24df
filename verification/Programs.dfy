/** A token list is a program exactly when it spells a legal file, and then it is read as what the file means. */
module Programs {
  import opened Wrappers
  import opened Lexers
  import opened Tokenizers
  import opened Decimals
  import opened Quoting
  import opened Grammars
  import opened Printers
  import opened RoundTrips
  import opened LexedTokens
  import opened Parsing
  import opened Syntax

  /** A token of this kind and text stands at pos. */
  predicate Is(ts: seq<Token>, pos: nat, l: Lexeme) {
    pos < |ts| && ts[pos].kind == l.kind && ts[pos].text == l.text
  }

  lemma SpellsOne(ts: seq<Token>, pos: nat, l: Lexeme)
    ensures Spells(ts, pos, [l]) <==> Is(ts, pos, l)
  {
    if Spells(ts, pos, [l]) { SpelledAt(ts, pos, [l], 0); }
  }

  /** One token, then the others. */
  lemma SpellsCons(ts: seq<Token>, pos: nat, l: Lexeme, rest: seq<Lexeme>)
    requires Is(ts, pos, l) && Spells(ts, pos + 1, rest)
    ensures Spells(ts, pos, [l] + rest)
  {
    SpellsOne(ts, pos, l);
    SpellsBoth(ts, pos, [l], rest);
  }

  lemma BraceIs(ts: seq<Token>, pos: nat)
    requires At(ts, pos)
    ensures ts[pos].kind == LBrace ==> Is(ts, pos, OPEN)
    ensures ts[pos].kind == RBrace ==> Is(ts, pos, CLOSE)
    ensures ts[pos].kind == Equals ==> Is(ts, pos, Lexeme(Equals, "="))
  {
    assert WellToken(ts[pos].kind, ts[pos].text);
  }

  /** A block in braces: what opens it, what is inside, and the brace that closes it. */
  lemma BracedSpelled(ts: seq<Token>, pos: nat, head: seq<Lexeme>, inside: seq<Lexeme>)
    requires At(ts, pos) && Spells(ts, pos, head) && Spells(ts, pos + |head|, inside)
    requires pos + |head| + |inside| < |ts| && ts[pos + |head| + |inside|].kind == RBrace
    ensures Spells(ts, pos, head + (inside + [CLOSE]))
  {
    hide Spells;
    BraceIs(ts, pos + |head| + |inside|);
    SpellsOne(ts, pos + |head| + |inside|, CLOSE);
    SpellsBoth(ts, pos + |head|, inside, [CLOSE]);
    SpellsBoth(ts, pos, head, inside + [CLOSE]);
  }

  // ---------------------------------------------------------------- statements that hold no others

  lemma ParallelReads(ts: seq<Token>, pos: nat, names: seq<string>)
    requires At(ts, pos) && Spells(ts, pos, [W("parallel")] + Block(names)) && |names| >= 2
    ensures StatementIs(ts, pos, ParallelStmt(names), pos + 1 + |Block(names)|)
  {
    hide Spells, Stream, Block, NameBlock;
    ListRead(ts, pos, "parallel", names);
  }

  lemma BareVoteReads(ts: seq<Token>, pos: nat, word: string)
    requires At(ts, pos) && Spells(ts, pos, [W("consensus"), W(word)]) && word in {"majority", "unanimous", "judge"}
    ensures StatementIs(ts, pos, ConsensusStmt(word, None, false), pos + 2)
  {
    hide Spells, Stream;
    TwoRead(ts, pos, "consensus", W(word));
  }

  lemma VoteBlockReads(ts: seq<Token>, pos: nat, items: seq<VoteItem>)
    requires At(ts, pos) && Spells(ts, pos, SpellNode(VoteBlock(items))) && LegalNode(VoteBlock(items))
    ensures StatementIs(ts, pos, MeansNode(VoteBlock(items)), pos + |SpellNode(VoteBlock(items))|)
  {
    hide Spells, Stream, LegalVoteItem, LastOf, Consensus, StatementIs, ChoiceRest, SpellAll;
    var inside := SpellAll(items, SpellVoteItem);
    BracesRound(ts, pos, "consensus", inside + [CLOSE]);
    assert ChoiceOf([]) == Choice(None, None, false) by { NoVotes(); }
    VoteItemsRead(ts, pos + 2, [], items);
    Closing(ts, pos + 2 + |inside|);
    assert [] + items == items;
    StrategySaid(items);
    BlockChoice(ts, pos, ChoiceOf(items), pos + 2 + |inside|);
  }

  lemma NoVotes()
    ensures ChoiceOf([]) == Choice(None, None, false)
  {
  }

  lemma BlockChoice(ts: seq<Token>, pos: nat, c: Choice, n: nat)
    requires At(ts, pos) && AtWord(ts, pos, "consensus") && pos + 2 < |ts| && ts[pos + 1].kind == LBrace && At(ts, n) && At(ts, n + 1) && ts[n].kind == RBrace
    requires ChoiceRest(ts, pos + 2, Choice(None, None, false)) == Success(Parsed(c, n)) && c.strategy.Some?
    ensures StatementIs(ts, pos, ConsensusStmt(c.strategy.value, c.mode, c.confidence), n + 1)
  {
    hide Stream, ChoiceFields;
    assert ChoiceFields(ts, pos + 2, Choice(None, None, false)) == ChoiceRest(ts, pos + 2, Choice(None, None, false)) by { UnfoldChoice(ts, pos + 2); }
  }

  lemma UnfoldChoice(ts: seq<Token>, pos: nat)
    requires At(ts, pos)
    ensures ChoiceFields(ts, pos, Choice(None, None, false)) == ChoiceRest(ts, pos, Choice(None, None, false))
  {
  }

  lemma BareArtifactReads(ts: seq<Token>, pos: nat, name: string)
    requires At(ts, pos) && Spells(ts, pos, [W("artifact"), W(name)]) && pos + 2 < |ts| && ts[pos + 2].kind != LBrace
    ensures StatementIs(ts, pos, ArtifactStmt(name, None, None), pos + 2)
  {
    hide Spells, Stream;
    TwoRead(ts, pos, "artifact", W(name));
  }

  lemma ArtifactBlockReads(ts: seq<Token>, pos: nat, name: string, items: seq<ArtifactItem>)
    requires At(ts, pos) && Spells(ts, pos, SpellNode(ArtifactBlock(name, items)))
    ensures StatementIs(ts, pos, MeansNode(ArtifactBlock(name, items)), pos + |SpellNode(ArtifactBlock(name, items))|)
  {
    hide Spells, Stream, LastOf, Artifact, StatementIs, ArtifactRest, SpellAll;
    var inside := SpellAll(items, SpellArtifactItem);
    ArtifactHead(ts, pos, name, inside + [CLOSE]);
    NoArtifactItems(name);
    ArtifactItemsRead(ts, pos + 3, name, [], items);
    Closing(ts, pos + 3 + |inside|);
    assert [] + items == items;
    BlockArtifact(ts, pos, name, ArtifactOf(name, items), pos + 3 + |inside|);
  }

  lemma BlockArtifact(ts: seq<Token>, pos: nat, name: string, s: Stmt, n: nat)
    requires At(ts, pos) && AtWord(ts, pos, "artifact") && pos + 3 < |ts| && ts[pos + 1].kind == Ident && ts[pos + 1].text == name
    requires ts[pos + 2].kind == LBrace && At(ts, n) && At(ts, n + 1) && ts[n].kind == RBrace
    requires ArtifactRest(ts, pos + 3, ArtifactOf(name, [])) == Success(Parsed(s, n))
    ensures StatementIs(ts, pos, s, n + 1)
  {
    hide Stream, ArtifactFields;
    NoArtifactItems(name);
    assert ArtifactFields(ts, pos + 3, ArtifactOf(name, [])) == ArtifactRest(ts, pos + 3, ArtifactOf(name, [])) by { UnfoldArtifact(ts, pos + 3, name); }
  }

  lemma NoArtifactItems(name: string)
    ensures ArtifactOf(name, []) == ArtifactStmt(name, None, None)
  {
  }

  lemma LetReads(ts: seq<Token>, pos: nat, name: string, artifact: string)
    requires At(ts, pos) && Spells(ts, pos, [W("let"), W(name), Lexeme(Equals, "="), W("artifact"), W(artifact)])
    ensures StatementIs(ts, pos, LetStmt(name, artifact), pos + 5)
  {
    hide Spells, Stream;
    LetRound(ts, pos, LetStmt(name, artifact));
  }

  lemma ApprovalReads(ts: seq<Token>, pos: nat, messages: seq<string>)
    requires At(ts, pos) && Spells(ts, pos, SpellNode(ApprovalNode(messages))) && LegalNode(ApprovalNode(messages))
    ensures StatementIs(ts, pos, ApprovalStmt(MessageOf(messages)), pos + |SpellNode(ApprovalNode(messages))|)
  {
    hide Spells, Stream, LastOf, MessageOf, Approval, StatementIs, ApprovalRest, SpellAll;
    var inside := SpellAll(messages, SpellMessage);
    BracesRound(ts, pos, "approval", inside + [CLOSE]);
    NoMessages();
    MessagesRead(ts, pos + 2, [], messages);
    Closing(ts, pos + 2 + |inside|);
    assert [] + messages == messages;
    BlockApproval(ts, pos, MessageOf(messages), pos + 2 + |inside|);
  }

  lemma BlockApproval(ts: seq<Token>, pos: nat, message: Option<string>, n: nat)
    requires At(ts, pos) && AtWord(ts, pos, "approval") && pos + 2 < |ts| && ts[pos + 1].kind == LBrace && At(ts, n) && At(ts, n + 1) && ts[n].kind == RBrace
    requires ApprovalRest(ts, pos + 2, None) == Success(Parsed(message, n))
    ensures StatementIs(ts, pos, ApprovalStmt(message), n + 1)
  {
    hide Stream, ApprovalFields;
    assert ApprovalFields(ts, pos + 2, None) == ApprovalRest(ts, pos + 2, None) by { UnfoldApproval(ts, pos + 2); }
  }

  lemma NoMessages()
    ensures MessageOf([]) == None
  {
  }

  lemma ConditionReads(ts: seq<Token>, pos: nat, field: string, op: Lexeme, number: string, tail: seq<Lexeme>)
    requires At(ts, pos) && Spells(ts, pos, [W("if"), W(field), op, Lexeme(Number, number), OPEN] + tail)
    requires op.kind in {Comparator, Lt, Gt} && IsLiteral(number)
    ensures AtWord(ts, pos, "if") && Condition(ts, pos) == Success(Parsed(Test(field, op.text, ParseDecimal(number)), pos + 5))
    ensures At(ts, pos + 5) && Spells(ts, pos + 5, tail)
  {
    hide Spells, Stream, ParseDecimal, IsLiteral;
    var l3, l4 := [Lexeme(Number, number)] + ([OPEN] + tail), [OPEN] + tail;
    assert [W("if"), W(field), op, Lexeme(Number, number), OPEN] + tail == [W("if")] + ([W(field)] + ([op] + l3));
    WordNext(ts, pos, "if", [W(field)] + ([op] + l3));
    Next(ts, pos + 1, W(field), [op] + l3);
    Next(ts, pos + 2, op, l3);
    Next(ts, pos + 3, Lexeme(Number, number), l4);
    Next(ts, pos + 4, OPEN, tail);
  }

  // ---------------------------------------------------------------- statements

  /** The next statement, or the end of the body, does not begin with a brace. */
  lemma NoBraceAfter(ts: seq<Token>, pos: nat, body: seq<Node>)
    requires Stream(ts) && Spells(ts, pos, SpellBody(body) + [CLOSE])
    ensures pos < |ts| && ts[pos].kind != LBrace
  {
    hide Spells;
    var ls := SpellBody(body) + [CLOSE];
    SpelledAt(ts, pos, ls, 0);
    assert ts[pos + 0] == ts[pos];
    if body != [] { assert ls[0] == SpellNode(body[0])[0]; }
  }

  lemma {:induction false} NodeReads(ts: seq<Token>, pos: nat, n: Node)
    requires At(ts, pos) && Spells(ts, pos, SpellNode(n)) && LegalNode(n)
    requires pos + |SpellNode(n)| < |ts| && ts[pos + |SpellNode(n)|].kind != LBrace
    ensures StatementIs(ts, pos, MeansNode(n), pos + |SpellNode(n)|)
    decreases n, 1
  {
    hide Spells, Stream, Block, SpellAll, StatementIs, LegalVoteItem, MessageOf;
    match n
    case StepNode(name) => StepRound(ts, pos, name);
    case RefNode(name) => RefRound(ts, pos, name);
    case ParallelNode(names) => ParallelReads(ts, pos, names);
    case BareVote(word) => BareVoteReads(ts, pos, word);
    case VoteBlock(items) => VoteBlockReads(ts, pos, items);
    case BareArtifact(name) => BareArtifactReads(ts, pos, name);
    case ArtifactBlock(name, items) => ArtifactBlockReads(ts, pos, name, items);
    case IfNode(_, _, _, _) => IfReads(ts, pos, n);
    case LetNode(name, artifact) => LetReads(ts, pos, name, artifact);
    case ApprovalNode(messages) =>
      ApprovalReads(ts, pos, messages);
      MessageMeans(messages);
    case MemoryNode(scope) => MemoryRound(ts, pos, scope);
  }

  lemma MessageMeans(messages: seq<string>)
    ensures MessageOf(messages) == LastOf(messages, MessageIn)
  {
  }

  lemma {:induction false} IfReads(ts: seq<Token>, pos: nat, n: Node)
    requires At(ts, pos) && n.IfNode? && Spells(ts, pos, SpellNode(n)) && LegalNode(n)
    ensures StatementIs(ts, pos, MeansNode(n), pos + |SpellNode(n)|)
    decreases n, 0
  {
    hide Spells, Stream, ParseDecimal, IsLiteral, BodyRest, Condition, Expect, StatementIs, LegalNode;
    IfLegal(n);
    var inside := SpellBody(n.body);
    ConditionReads(ts, pos, n.field, n.op, n.number, inside + [CLOSE]);
    BodyReads(ts, pos + 5, [], n.body);
    assert [] + MeansBody(n.body) == MeansBody(n.body);
    Closing(ts, pos + 5 + |inside|);
    var s := MeansNode(n);
    IfParts(ts, pos, s, pos + 5, pos + 5 + |inside|);
    IfIs(ts, pos, s, pos + 6 + |inside|);
  }

  lemma IfLegal(n: Node)
    requires n.IfNode? && LegalNode(n)
    ensures n.op.kind in {Comparator, Lt, Gt} && IsLiteral(n.number) && LegalBody(n.body)
    ensures MeansNode(n) == IfStmt(n.field, n.op.text, ParseDecimal(n.number), MeansBody(n.body))
  {
    assert MeansNode(n).then_ == MeansBody(n.body);
  }

  lemma IfIs(ts: seq<Token>, pos: nat, s: Stmt, n: nat)
    requires At(ts, pos) && AtWord(ts, pos, "if") && If(ts, pos) == Success(Parsed(s, n))
    ensures StatementIs(ts, pos, s, n)
  {
    hide If;
  }

  lemma {:induction false} BodyReads(ts: seq<Token>, pos: nat, acc: seq<Stmt>, body: seq<Node>)
    requires At(ts, pos) && Spells(ts, pos, SpellBody(body) + [CLOSE]) && LegalBody(body)
    ensures BodyRest(ts, pos, acc) == Success(Parsed(acc + MeansBody(body), pos + |SpellBody(body)|))
    ensures Spells(ts, pos + |SpellBody(body)|, [CLOSE])
    decreases body, 2
  {
    hide Spells, Stream, BodyRest, StatementIs, LegalNode, MeansNode;
    if body == [] {
      assert SpellBody(body) + [CLOSE] == [CLOSE] && acc + MeansBody(body) == acc;
      BodyEnd(ts, pos, acc);
    } else {
      var rest := SpellBody(body[1..]) + [CLOSE];
      var n := pos + |SpellNode(body[0])|;
      assert SpellBody(body) + [CLOSE] == SpellNode(body[0]) + rest;
      Split(ts, pos, SpellNode(body[0]), rest);
      NoBraceAfter(ts, n, body[1..]);
      NodeReads(ts, pos, body[0]);
      BodyStep(ts, pos, acc, MeansNode(body[0]), n);
      BodyReads(ts, n, acc + [MeansNode(body[0])], body[1..]);
      assert acc + [MeansNode(body[0])] + MeansBody(body[1..]) == acc + MeansBody(body);
    }
  }

  // ---------------------------------------------------------------- and back

  lemma VoteBlockBack(ts: seq<Token>, pos: nat) returns (n: Node)
    requires At(ts, pos) && AtWord(ts, pos, "consensus") && Consensus(ts, pos).Success? && At(ts, pos + 1) && ts[pos + 1].kind == LBrace
    ensures LegalNode(n) && Spells(ts, pos, SpellNode(n)) && Consensus(ts, pos) == Success(Parsed(MeansNode(n), pos + |SpellNode(n)|))
  {
    hide Spells, LegalVoteItem, LastOf, SpellAll, ChoiceFields;
    NoVotes();
    assert ChoiceFields(ts, pos + 2, ChoiceOf([])) == ChoiceRest(ts, pos + 2, ChoiceOf([])) by { UnfoldChoice(ts, pos + 2); }
    var items := VoteItemsBack(ts, pos + 2, []);
    assert [] + items == items;
    StrategySaid(items);
    n := VoteBlock(items);
    SpellsOpen(ts, pos, "consensus");
    BracedSpelled(ts, pos, [W("consensus"), OPEN], SpellAll(items, SpellVoteItem));
  }

  lemma SpellsOpen(ts: seq<Token>, pos: nat, word: string)
    requires At(ts, pos) && AtWord(ts, pos, word) && At(ts, pos + 1) && ts[pos + 1].kind == LBrace
    ensures Spells(ts, pos, [W(word), OPEN])
  {
    BraceIs(ts, pos + 1);
  }

  lemma SpellsOpening(ts: seq<Token>, pos: nat, word: string)
    requires At(ts, pos) && AtWord(ts, pos, word) && At(ts, pos + 2) && ts[pos + 1].kind == Ident && ts[pos + 2].kind == LBrace
    ensures Spells(ts, pos, [W(word), W(ts[pos + 1].text), OPEN])
  {
    BraceIs(ts, pos + 2);
  }

  lemma ArtifactBlockBack(ts: seq<Token>, pos: nat) returns (n: Node)
    requires At(ts, pos) && AtWord(ts, pos, "artifact") && Artifact(ts, pos).Success? && At(ts, pos + 2) && ts[pos + 2].kind == LBrace
    ensures LegalNode(n) && Spells(ts, pos, SpellNode(n)) && Artifact(ts, pos) == Success(Parsed(MeansNode(n), pos + |SpellNode(n)|))
  {
    hide Spells, LastOf, SpellAll, ArtifactFields;
    var name := ts[pos + 1].text;
    NoArtifactItems(name);
    assert ArtifactFields(ts, pos + 3, ArtifactOf(name, [])) == ArtifactRest(ts, pos + 3, ArtifactOf(name, [])) by { UnfoldArtifact(ts, pos + 3, name); }
    var items := ArtifactItemsBack(ts, pos + 3, name, []);
    assert [] + items == items;
    n := ArtifactBlock(name, items);
    SpellsOpening(ts, pos, "artifact");
    BracedSpelled(ts, pos, [W("artifact"), W(name), OPEN], SpellAll(items, SpellArtifactItem));
  }

  lemma UnfoldArtifact(ts: seq<Token>, pos: nat, name: string)
    requires At(ts, pos)
    ensures ArtifactFields(ts, pos, ArtifactOf(name, [])) == ArtifactRest(ts, pos, ArtifactOf(name, []))
  {
  }

  lemma ApprovalBack(ts: seq<Token>, pos: nat) returns (n: Node)
    requires At(ts, pos) && AtWord(ts, pos, "approval") && Approval(ts, pos).Success?
    ensures LegalNode(n) && Spells(ts, pos, SpellNode(n)) && Approval(ts, pos) == Success(Parsed(MeansNode(n), pos + |SpellNode(n)|))
  {
    hide Spells, LastOf, SpellAll, ApprovalFields;
    NoMessages();
    assert ApprovalFields(ts, pos + 2, None) == ApprovalRest(ts, pos + 2, None) by { UnfoldApproval(ts, pos + 2); }
    var messages := MessagesBack(ts, pos + 2, []);
    assert [] + messages == messages;
    n := ApprovalNode(messages);
    SpellsOpen(ts, pos, "approval");
    BracedSpelled(ts, pos, [W("approval"), OPEN], SpellAll(messages, SpellMessage));
  }

  lemma UnfoldApproval(ts: seq<Token>, pos: nat)
    requires At(ts, pos)
    ensures ApprovalFields(ts, pos, None) == ApprovalRest(ts, pos, None)
  {
  }

  lemma LetTokens(ts: seq<Token>, pos: nat)
    requires At(ts, pos) && AtWord(ts, pos, "let") && Let(ts, pos).Success?
    ensures At(ts, pos + 5) && ts[pos + 1].kind == Ident && ts[pos + 2].kind == Equals && AtWord(ts, pos + 3, "artifact") && ts[pos + 4].kind == Ident
    ensures Let(ts, pos) == Success(Parsed(LetStmt(ts[pos + 1].text, ts[pos + 4].text), pos + 5))
  {
  }

  lemma LetBack(ts: seq<Token>, pos: nat) returns (n: Node)
    requires At(ts, pos) && AtWord(ts, pos, "let") && Let(ts, pos).Success?
    ensures LegalNode(n) && Spells(ts, pos, SpellNode(n)) && Let(ts, pos) == Success(Parsed(MeansNode(n), pos + |SpellNode(n)|))
  {
    LetTokens(ts, pos);
    hide Spells, Let;
    BraceIs(ts, pos + 2);
    n := LetNode(ts[pos + 1].text, ts[pos + 4].text);
    var l1, l2, l3, l4 := W(ts[pos + 1].text), Lexeme(Equals, "="), W("artifact"), W(ts[pos + 4].text);
    SpellsOne(ts, pos + 4, l4);
    SpellsCons(ts, pos + 3, l3, [l4]);
    SpellsCons(ts, pos + 2, l2, [l3] + [l4]);
    SpellsCons(ts, pos + 1, l1, [l2] + ([l3] + [l4]));
    SpellsCons(ts, pos, W("let"), [l1] + ([l2] + ([l3] + [l4])));
    assert [W("let")] + ([l1] + ([l2] + ([l3] + [l4]))) == SpellNode(n);
  }

  lemma ParallelBack(ts: seq<Token>, pos: nat) returns (n: Node)
    requires At(ts, pos) && AtWord(ts, pos, "parallel") && Parallel(ts, pos).Success?
    ensures LegalNode(n) && Spells(ts, pos, SpellNode(n)) && Parallel(ts, pos) == Success(Parsed(MeansNode(n), pos + |SpellNode(n)|))
  {
    hide Spells, Block, NameBlock;
    ListSpelled(ts, pos, "parallel");
    n := ParallelNode(NameBlock(ts, pos + 1).value.value);
  }

  lemma ConditionBack(ts: seq<Token>, pos: nat)
    requires At(ts, pos) && AtWord(ts, pos, "if") && Condition(ts, pos).Success?
    ensures At(ts, pos + 5) && ts[pos + 2].kind in {Comparator, Lt, Gt} && IsLiteral(ts[pos + 3].text)
    ensures Condition(ts, pos) == Success(Parsed(Test(ts[pos + 1].text, ts[pos + 2].text, ParseDecimal(ts[pos + 3].text)), pos + 5))
    ensures Spells(ts, pos, [W("if"), W(ts[pos + 1].text), Lexeme(ts[pos + 2].kind, ts[pos + 2].text), Lexeme(Number, ts[pos + 3].text), OPEN])
  {
    hide ParseDecimal, Spells, IsLiteral;
    assert WellToken(ts[pos + 3].kind, ts[pos + 3].text);
    BraceIs(ts, pos + 4);
    var l1, l2, l3 := W(ts[pos + 1].text), Lexeme(ts[pos + 2].kind, ts[pos + 2].text), Lexeme(Number, ts[pos + 3].text);
    SpellsOne(ts, pos + 4, OPEN);
    SpellsCons(ts, pos + 3, l3, [OPEN]);
    SpellsCons(ts, pos + 2, l2, [l3] + [OPEN]);
    SpellsCons(ts, pos + 1, l1, [l2] + ([l3] + [OPEN]));
    SpellsCons(ts, pos, W("if"), [l1] + ([l2] + ([l3] + [OPEN])));
    assert [W("if")] + ([l1] + ([l2] + ([l3] + [OPEN]))) == [W("if"), l1, l2, l3, OPEN];
  }

  lemma {:induction false} IfBack(ts: seq<Token>, pos: nat) returns (n: Node)
    requires At(ts, pos) && AtWord(ts, pos, "if") && If(ts, pos).Success?
    ensures LegalNode(n) && Spells(ts, pos, SpellNode(n)) && If(ts, pos) == Success(Parsed(MeansNode(n), pos + |SpellNode(n)|))
    decreases |ts| - pos, 0
  {
    hide Spells, ParseDecimal, IsLiteral, BodyFrom, Condition, LegalNode, MeansNode, LegalBody, MeansBody;
    ConditionBack(ts, pos);
    UnfoldBody(ts, pos + 5, []);
    var body := BodyBack(ts, pos + 5, []);
    assert [] + MeansBody(body) == MeansBody(body);
    var op := Lexeme(ts[pos + 2].kind, ts[pos + 2].text);
    n := IfNode(ts[pos + 1].text, op, ts[pos + 3].text, body);
    BracedSpelled(ts, pos, [W("if"), W(n.field), op, Lexeme(Number, n.number), OPEN], SpellBody(body));
    IfMeans(n);
  }

  lemma IfMeans(n: Node)
    requires n.IfNode? && n.op.kind in {Comparator, Lt, Gt} && IsLiteral(n.number) && LegalBody(n.body)
    ensures LegalNode(n) && MeansNode(n) == IfStmt(n.field, n.op.text, ParseDecimal(n.number), MeansBody(n.body))
  {
    assert MeansNode(n).then_ == MeansBody(n.body);
  }

  lemma UnfoldBody(ts: seq<Token>, pos: nat, acc: seq<Stmt>)
    requires At(ts, pos)
    ensures BodyFrom(ts, pos, acc) == BodyRest(ts, pos, acc)
  {
  }

  lemma SmallBack(ts: seq<Token>, pos: nat) returns (n: Node)
    requires At(ts, pos) && ts[pos].kind == Ident && Statement(ts, pos).Success? && ts[pos].text !in {"parallel", "if", "let", "approval"}
    requires ts[pos].text == "consensus" ==> ts[pos + 1].kind != LBrace
    requires ts[pos].text == "artifact" ==> pos + 2 < |ts| ==> ts[pos + 2].kind != LBrace
    ensures LegalNode(n) && Spells(ts, pos, SpellNode(n)) && Statement(ts, pos) == Success(Parsed(MeansNode(n), pos + |SpellNode(n)|))
  {
    var word := ts[pos].text;
    if word == "step" { n := StepNode(ts[pos + 1].text); TwoSpelled(ts, pos, word, Ident); }
    else if word == "consensus" { n := BareVote(ts[pos + 1].text); TwoSpelled(ts, pos, word, Ident); }
    else if word == "artifact" { n := BareArtifact(ts[pos + 1].text); TwoSpelled(ts, pos, word, Ident); }
    else if word == "memory" { n := MemoryNode(ts[pos + 1].text); TwoSpelled(ts, pos, word, Ident); }
    else { n := RefNode(word); SpellsOne(ts, pos, W(word)); }
  }

  lemma {:induction false} NodeBack(ts: seq<Token>, pos: nat) returns (n: Node)
    requires At(ts, pos) && Statement(ts, pos).Success?
    ensures ts[pos].kind == Ident
    ensures LegalNode(n) && Spells(ts, pos, SpellNode(n)) && Statement(ts, pos) == Success(Parsed(MeansNode(n), pos + |SpellNode(n)|))
    decreases |ts| - pos, 1
  {
    hide Spells, Parallel, If, Let, Approval, LegalNode, MeansNode, SpellNode, Consensus, Artifact;
    var word := ts[pos].text;
    if word == "parallel" { n := ParallelBack(ts, pos); }
    else if word == "if" { n := IfBack(ts, pos); }
    else if word == "let" { n := LetBack(ts, pos); }
    else if word == "approval" { n := ApprovalBack(ts, pos); }
    else if word == "consensus" && pos + 1 < |ts| && ts[pos + 1].kind == LBrace { n := VoteBlockBack(ts, pos); }
    else if word == "artifact" && pos + 2 < |ts| && ts[pos + 2].kind == LBrace { n := ArtifactBlockBack(ts, pos); }
    else {
      SomethingFollows(ts, pos);
      n := SmallBack(ts, pos);
    }
  }

  lemma SomethingFollows(ts: seq<Token>, pos: nat)
    requires At(ts, pos) && ts[pos].kind == Ident
    ensures At(ts, pos + 1)
  {
  }

  lemma {:induction false} BodyBack(ts: seq<Token>, pos: nat, acc: seq<Stmt>) returns (body: seq<Node>)
    requires At(ts, pos) && BodyRest(ts, pos, acc).Success?
    ensures LegalBody(body) && Spells(ts, pos, SpellBody(body))
    ensures BodyRest(ts, pos, acc) == Success(Parsed(acc + MeansBody(body), pos + |SpellBody(body)|))
    decreases |ts| - pos, 2
  {
    hide LegalNode, MeansNode, Statement, StatementIs;
    if ts[pos].kind == RBrace {
      body := [];
      assert acc + MeansBody([]) == acc;
    } else {
      var n := NodeBack(ts, pos);
      var next := pos + |SpellNode(n)|;
      NodeStands(ts, pos, MeansNode(n), next);
      BodyStep(ts, pos, acc, MeansNode(n), next);
      var rest := BodyBack(ts, next, acc + [MeansNode(n)]);
      body := [n] + rest;
      assert body[1..] == rest;
      assert MeansBody(body) == [MeansNode(n)] + MeansBody(rest);
      assert acc + [MeansNode(n)] + MeansBody(rest) == acc + MeansBody(body);
      SpellsBoth(ts, pos, SpellNode(n), SpellBody(rest));
    }
  }

  lemma NodeStands(ts: seq<Token>, pos: nat, s: Stmt, n: nat)
    requires At(ts, pos) && ts[pos].kind == Ident && Statement(ts, pos) == Success(Parsed(s, n))
    ensures StatementIs(ts, pos, s, n)
  {
    hide Statement;
  }

  // ---------------------------------------------------------------- declarations

  predicate NoWorkflow(decls: seq<Decl>) {
    forall k | 0 <= k < |decls| :: !decls[k].WorkflowDecl?
  }

  predicate AllLegal(decls: seq<Decl>) {
    forall k | 0 <= k < |decls| :: LegalDecl(decls[k])
  }

  predicate AtMostOneWorkflow(decls: seq<Decl>) {
    forall j, k | 0 <= j < k < |decls| :: !(decls[j].WorkflowDecl? && decls[k].WorkflowDecl?)
  }

  lemma MeansSnoc(done: seq<Decl>, d: Decl)
    requires LegalDecl(d)
    ensures var ir := Means(done);
      Means(done + [d]) ==
        match d
        case ImportDecl(name) => ir.(imports := ir.imports + [name])
        case ToolDecl(name) => ir.(tools := ir.tools + [name])
        case CapabilityDecl(name) => ir.(capabilities := ir.capabilities + [name])
        case ProviderDecl(name) => ir.(provider := Some(name))
        case MemoryDecl(scope) => ir.(memory := Some(scope))
        case AgentDecl(name, items) => ir.(agents := ir.agents + [AgentOf(name, items)])
        case PolicyDecl(items) => ir.(policy := PolicyOf(items))
        case WorkflowDecl(name, body) => ir.(workflow := Some(WorkflowIR(name, MeansBody(body))))
  {
    hide LastOf, AllOf, LegalBody, MeansBody, AgentOf, PolicyOf;
    var ir := Means(done);
    LastSnoc(done, d, ImportIn);
    LastSnoc(done, d, ToolIn);
    LastSnoc(done, d, CapabilityIn);
    LastSnoc(done, d, DefaultIn);
    LastSnoc(done, d, ScopeIn);
    LastSnoc(done, d, AgentIn);
    LastSnoc(done, d, PolicyIn);
    LastSnoc(done, d, WorkflowIn);
    assert ir.imports + [] == ir.imports && ir.tools + [] == ir.tools && ir.capabilities + [] == ir.capabilities && ir.agents + [] == ir.agents;
  }

  lemma {:induction false} WorkflowSaid(decls: seq<Decl>)
    requires AllLegal(decls)
    ensures Means(decls).workflow.None? <==> NoWorkflow(decls)
    decreases |decls|
  {
    hide LegalDecl, MeansBody;
    if decls != [] {
      var init, last := decls[..|decls| - 1], decls[|decls| - 1];
      WorkflowSaid(init);
      MeansSnoc(init, last);
      assert init + [last] == decls;
      assert last.WorkflowDecl? ==> !NoWorkflow(decls);
      if NoWorkflow(init) && !last.WorkflowDecl? {
        forall k | 0 <= k < |decls| ensures !decls[k].WorkflowDecl? { if k < |init| { assert decls[k] == init[k]; } }
      }
      if NoWorkflow(decls) {
        forall k | 0 <= k < |init| ensures !init[k].WorkflowDecl? { assert decls[k] == init[k]; }
      }
    }
  }

  lemma NoFields(name: string)
    ensures AgentOf(name, []) == NewAgent(name) && PolicyOf([]) == NO_POLICY
  {
  }

  lemma AgentReads(ts: seq<Token>, pos: nat, name: string, items: seq<AgentItem>)
    requires At(ts, pos) && Spells(ts, pos, SpellDecl(AgentDecl(name, items))) && LegalDecl(AgentDecl(name, items))
    ensures AtWord(ts, pos, "agent") && Agent(ts, pos) == Success(Parsed(AgentOf(name, items), pos + |SpellDecl(AgentDecl(name, items))|))
  {
    hide Spells, Stream, AgentOf, LegalAgentItem, Expect, Opening, SpellAll, AgentFields;
    var inside := SpellAll(items, SpellAgentItem);
    OpeningRound(ts, pos, "agent", name, inside + [CLOSE]);
    NoFields(name);
    AgentItemsRead(ts, pos + 3, name, [], items);
    UnfoldAgent(ts, pos + 3, name);
    Closing(ts, pos + 3 + |inside|);
    assert [] + items == items;
  }

  lemma UnfoldAgent(ts: seq<Token>, pos: nat, name: string)
    requires At(ts, pos)
    ensures AgentFields(ts, pos, NewAgent(name)) == AgentRest(ts, pos, NewAgent(name))
  {
  }

  lemma PolicyReads(ts: seq<Token>, pos: nat, items: seq<PolicyItem>)
    requires At(ts, pos) && Spells(ts, pos, SpellDecl(PolicyDecl(items))) && LegalDecl(PolicyDecl(items))
    ensures AtWord(ts, pos, "policy") && Policy(ts, pos) == Success(Parsed(PolicyOf(items), pos + |SpellDecl(PolicyDecl(items))|))
  {
    hide Spells, Stream, PolicyOf, LegalPolicyItem, Expect, Braces, SpellAll, PolicyFields;
    var inside := SpellAll(items, SpellPolicyItem);
    BracesRound(ts, pos, "policy", inside + [CLOSE]);
    NoFields("");
    PolicyItemsRead(ts, pos + 2, [], items);
    UnfoldPolicy(ts, pos + 2);
    Closing(ts, pos + 2 + |inside|);
    assert [] + items == items;
  }

  lemma UnfoldPolicy(ts: seq<Token>, pos: nat)
    requires At(ts, pos)
    ensures PolicyFields(ts, pos, NO_POLICY) == PolicyRest(ts, pos, NO_POLICY)
  {
  }

  lemma WorkflowReads(ts: seq<Token>, pos: nat, name: string, body: seq<Node>)
    requires At(ts, pos) && Spells(ts, pos, SpellDecl(WorkflowDecl(name, body))) && LegalBody(body)
    ensures AtWord(ts, pos, "workflow")
    ensures Workflow(ts, pos) == Success(Parsed(WorkflowIR(name, MeansBody(body)), pos + |SpellDecl(WorkflowDecl(name, body))|))
  {
    hide Spells, Stream, LegalBody, MeansBody, Expect, Opening, SpellBody, BodyFrom;
    var inside := SpellBody(body);
    OpeningRound(ts, pos, "workflow", name, inside + [CLOSE]);
    BodyReads(ts, pos + 3, [], body);
    UnfoldBody(ts, pos + 3, []);
    Closing(ts, pos + 3 + |inside|);
    assert [] + MeansBody(body) == MeansBody(body);
  }

  lemma DeclReads(ts: seq<Token>, pos: nat, done: seq<Decl>, d: Decl)
    requires At(ts, pos) && Spells(ts, pos, SpellDecl(d)) && LegalDecl(d)
    requires d.WorkflowDecl? ==> Means(done).workflow.None?
    ensures ts[pos].kind == Ident
    ensures Declaration(ts, pos, Means(done)) == Success(Parsed(Means(done + [d]), pos + |SpellDecl(d)|))
  {
    hide Spells, Stream, Means, MeansBody, LegalBody, AgentOf, PolicyOf, Agent, Policy, Workflow, SpellAll, SpellBody, LegalAgentItem, LegalPolicyItem;
    MeansSnoc(done, d);
    match d
    case ImportDecl(name) => TwoRead(ts, pos, "import", W(name));
    case ToolDecl(name) => TwoRead(ts, pos, "tool", W(name));
    case CapabilityDecl(name) => TwoRead(ts, pos, "capability", W(name));
    case ProviderDecl(name) => TwoRead(ts, pos, "provider", W(name));
    case MemoryDecl(scope) => TwoRead(ts, pos, "memory", W(scope));
    case AgentDecl(name, items) => AgentReads(ts, pos, name, items);
    case PolicyDecl(items) => PolicyReads(ts, pos, items);
    case WorkflowDecl(name, body) => WorkflowReads(ts, pos, name, body);
  }

  lemma AgentBack(ts: seq<Token>, pos: nat) returns (d: Decl)
    requires At(ts, pos) && AtWord(ts, pos, "agent") && Agent(ts, pos).Success?
    ensures d.AgentDecl? && LegalDecl(d) && Spells(ts, pos, SpellDecl(d))
    ensures Agent(ts, pos) == Success(Parsed(AgentOf(d.name, d.fields), pos + |SpellDecl(d)|))
  {
    hide Spells, AgentOf, LegalAgentItem, SpellAll, AgentFields;
    var name := ts[pos + 1].text;
    NoFields(name);
    UnfoldAgent(ts, pos + 3, name);
    var items := AgentItemsBack(ts, pos + 3, name, []);
    assert [] + items == items;
    d := AgentDecl(name, items);
    SpellsOpening(ts, pos, "agent");
    BracedSpelled(ts, pos, [W("agent"), W(name), OPEN], SpellAll(items, SpellAgentItem));
  }

  lemma PolicyBack(ts: seq<Token>, pos: nat) returns (d: Decl)
    requires At(ts, pos) && AtWord(ts, pos, "policy") && Policy(ts, pos).Success?
    ensures d.PolicyDecl? && LegalDecl(d) && Spells(ts, pos, SpellDecl(d))
    ensures Policy(ts, pos) == Success(Parsed(PolicyOf(d.limits), pos + |SpellDecl(d)|))
  {
    hide Spells, PolicyOf, LegalPolicyItem, SpellAll, PolicyFields;
    NoFields("");
    UnfoldPolicy(ts, pos + 2);
    var items := PolicyItemsBack(ts, pos + 2, []);
    assert [] + items == items;
    d := PolicyDecl(items);
    SpellsOpen(ts, pos, "policy");
    BracedSpelled(ts, pos, [W("policy"), OPEN], SpellAll(items, SpellPolicyItem));
  }

  lemma WorkflowBack(ts: seq<Token>, pos: nat) returns (d: Decl)
    requires At(ts, pos) && AtWord(ts, pos, "workflow") && Workflow(ts, pos).Success?
    ensures d.WorkflowDecl? && LegalDecl(d) && Spells(ts, pos, SpellDecl(d))
    ensures Workflow(ts, pos) == Success(Parsed(WorkflowIR(d.name, MeansBody(d.body)), pos + |SpellDecl(d)|))
  {
    hide Spells, LegalBody, MeansBody, SpellBody, BodyFrom;
    var name := ts[pos + 1].text;
    UnfoldBody(ts, pos + 3, []);
    var body := BodyBack(ts, pos + 3, []);
    assert [] + MeansBody(body) == MeansBody(body);
    d := WorkflowDecl(name, body);
    SpellsOpening(ts, pos, "workflow");
    BracedSpelled(ts, pos, [W("workflow"), W(name), OPEN], SpellBody(body));
  }

  lemma NameDeclBack(ts: seq<Token>, pos: nat, done: seq<Decl>) returns (d: Decl)
    requires At(ts, pos) && Declaration(ts, pos, Means(done)).Success? && ts[pos].text !in {"agent", "policy", "workflow"}
    ensures !d.WorkflowDecl? && LegalDecl(d) && Spells(ts, pos, SpellDecl(d))
    ensures Declaration(ts, pos, Means(done)) == Success(Parsed(Means(done + [d]), pos + |SpellDecl(d)|))
  {
    hide Spells, Means, MeansBody, LegalBody, AgentOf, PolicyOf, SpellAll, SpellBody, LegalAgentItem, LegalPolicyItem;
    var word, v := ts[pos].text, ts[pos + 1].text;
    TwoSpelled(ts, pos, word, Ident);
    d := if word == "import" then ImportDecl(v) else if word == "tool" then ToolDecl(v) else if word == "capability" then CapabilityDecl(v)
         else if word == "provider" then ProviderDecl(v) else MemoryDecl(v);
    MeansSnoc(done, d);
  }

  lemma DeclBack(ts: seq<Token>, pos: nat, done: seq<Decl>) returns (d: Decl)
    requires At(ts, pos) && Declaration(ts, pos, Means(done)).Success?
    ensures ts[pos].kind == Ident && LegalDecl(d) && Spells(ts, pos, SpellDecl(d))
    ensures Declaration(ts, pos, Means(done)) == Success(Parsed(Means(done + [d]), pos + |SpellDecl(d)|))
    ensures d.WorkflowDecl? ==> Means(done).workflow.None?
  {
    hide Spells, Means, MeansBody, LegalDecl, AgentOf, PolicyOf, SpellDecl, Agent, Policy, Workflow, NameDeclaration, Scope;
    var word := ts[pos].text;
    if word == "agent" { d := AgentBack(ts, pos); MeansSnoc(done, d); }
    else if word == "policy" { d := PolicyBack(ts, pos); MeansSnoc(done, d); }
    else if word == "workflow" { d := WorkflowBack(ts, pos); MeansSnoc(done, d); }
    else { d := NameDeclBack(ts, pos, done); }
  }

  // ---------------------------------------------------------------- the file

  lemma LegalParts(done: seq<Decl>, decls: seq<Decl>)
    requires AllLegal(done + decls) && AtMostOneWorkflow(done + decls) && decls != []
    ensures AllLegal(done) && LegalDecl(decls[0]) && (decls[0].WorkflowDecl? ==> NoWorkflow(done))
  {
    hide LegalDecl;
    var all := done + decls;
    assert all[|done|] == decls[0];
    forall k | 0 <= k < |done| ensures LegalDecl(done[k]) && (decls[0].WorkflowDecl? ==> !done[k].WorkflowDecl?) { assert all[k] == done[k]; }
  }

  lemma {:induction false} DeclsRead(ts: seq<Token>, pos: nat, done: seq<Decl>, decls: seq<Decl>)
    requires At(ts, pos) && Spells(ts, pos, SpellAll(decls, SpellDecl)) && pos + |SpellAll(decls, SpellDecl)| == |ts| - 1
    requires AllLegal(done + decls) && AtMostOneWorkflow(done + decls) && !NoWorkflow(done + decls)
    ensures DeclRest(ts, pos, Means(done)) == Success(Parsed(Means(done + decls), |ts| - 1))
    decreases |decls|
  {
    hide Spells, Means, LegalDecl, SpellDecl, DeclRest, AllLegal, AtMostOneWorkflow, NoWorkflow;
    if decls == [] {
      assert done + decls == done;
      WorkflowSaid(done);
      DeclEnd(ts, pos, Means(done));
    } else {
      var d := decls[0];
      LegalParts(done, decls);
      WorkflowSaid(done);
      Split(ts, pos, SpellDecl(d), SpellAll(decls[1..], SpellDecl));
      DeclReads(ts, pos, done, d);
      DeclStep(ts, pos, Means(done), pos + |SpellDecl(d)|, Means(done + [d]));
      Rejoin(done, decls);
      DeclsRead(ts, pos + |SpellDecl(d)|, done + [d], decls[1..]);
    }
  }

  lemma OneMoreDecl(done: seq<Decl>, d: Decl)
    requires AllLegal(done) && AtMostOneWorkflow(done) && LegalDecl(d) && (d.WorkflowDecl? ==> NoWorkflow(done))
    ensures AllLegal(done + [d]) && AtMostOneWorkflow(done + [d])
  {
    hide LegalDecl;
  }

  lemma {:induction false} DeclsBack(ts: seq<Token>, pos: nat, done: seq<Decl>) returns (decls: seq<Decl>)
    requires At(ts, pos) && DeclRest(ts, pos, Means(done)).Success? && AllLegal(done) && AtMostOneWorkflow(done)
    ensures AllLegal(done + decls) && AtMostOneWorkflow(done + decls) && !NoWorkflow(done + decls)
    ensures Spells(ts, pos, SpellAll(decls, SpellDecl)) && pos + |SpellAll(decls, SpellDecl)| == |ts| - 1
    ensures DeclRest(ts, pos, Means(done)) == Success(Parsed(Means(done + decls), |ts| - 1))
    decreases |ts| - pos
  {
    hide Means, LegalDecl, SpellDecl, AllLegal, AtMostOneWorkflow, NoWorkflow, Declaration, Spells;
    WorkflowSaid(done);
    if ts[pos].kind == EOF {
      decls := [];
      SpellsNothing(ts, pos);
      assert done + decls == done;
      LastIsEnd(ts, pos);
    } else {
      var d := DeclBack(ts, pos, done);
      hide DeclRest;
      DeclStep(ts, pos, Means(done), pos + |SpellDecl(d)|, Means(done + [d]));
      OneMoreDecl(done, d);
      var rest := DeclsBack(ts, pos + |SpellDecl(d)|, done + [d]);
      decls := [d] + rest;
      assert decls[1..] == rest;
      Rejoin(done, decls);
      SpellsBoth(ts, pos, SpellDecl(d), SpellAll(rest, SpellDecl));
    }
  }

  lemma LastIsEnd(ts: seq<Token>, pos: nat)
    requires At(ts, pos) && ts[pos].kind == EOF
    ensures pos == |ts| - 1
  {
  }

  /** The tokens spell these declarations and nothing else. */
  ghost predicate IsFile(ts: seq<Token>, decls: seq<Decl>) {
    Legal(decls) && Spells(ts, 0, SpellAll(decls, SpellDecl)) && |ts| == |SpellAll(decls, SpellDecl)| + 1
  }

  lemma LegalIs(decls: seq<Decl>)
    ensures Legal(decls) <==> AllLegal(decls) && AtMostOneWorkflow(decls) && !NoWorkflow(decls)
  {
    hide LegalDecl;
  }

  lemma NothingMeans()
    ensures Means([]) == EMPTY
  {
  }

  /** Whatever legal file the tokens spell, they are read as what it means: every form, in any order. */
  lemma FileReads(ts: seq<Token>, decls: seq<Decl>)
    requires Stream(ts) && IsFile(ts, decls)
    ensures Program(ts) == Success(Parsed(Means(decls), |ts| - 1))
  {
    hide Means, Legal, AllLegal, AtMostOneWorkflow, NoWorkflow, Spells, DeclRest;
    LegalIs(decls);
    NothingMeans();
    assert [] + decls == decls;
    DeclsRead(ts, 0, [], decls);
    ProgramIs(ts);
  }

  lemma NothingLegal()
    ensures AllLegal([]) && AtMostOneWorkflow([])
  {
  }

  /** And tokens are accepted only where they spell a legal file. */
  lemma ProgramIff(ts: seq<Token>, ir: IR)
    requires Stream(ts)
    ensures Program(ts) == Success(Parsed(ir, |ts| - 1)) <==> exists decls :: IsFile(ts, decls) && Means(decls) == ir
    ensures Program(ts).Success? <==> exists decls :: IsFile(ts, decls)
  {
    hide Means, Legal, AllLegal, AtMostOneWorkflow, NoWorkflow, Spells, DeclRest;
    forall decls | IsFile(ts, decls) ensures Program(ts) == Success(Parsed(Means(decls), |ts| - 1)) { FileReads(ts, decls); }
    if Program(ts).Success? {
      ProgramIs(ts);
      NothingMeans();
      NothingLegal();
      var decls := DeclsBack(ts, 0, []);
      assert [] + decls == decls;
      LegalIs(decls);
      assert IsFile(ts, decls);
    }
  }

  /** A source text parses to a representation exactly when it lexes into the tokens of a legal file that means it. */
  lemma ParseIff(source: string, ir: IR)
    ensures ParseSource(source) == Success(ir) <==>
      Lex(source, 0).Success? && exists decls :: IsFile(Lex(source, 0).value, decls) && Means(decls) == ir
  {
    hide Means, IsFile, Program;
    if Lex(source, 0).Success? {
      LexedStream(source);
      var ts := Lex(source, 0).value;
      ProgramIff(ts, ir);
      if Program(ts).Success? { ProgramEnds(ts); }
    }
  }

  lemma ProgramEnds(ts: seq<Token>)
    requires Stream(ts) && Program(ts).Success?
    ensures Program(ts).value.next == |ts| - 1
  {
  }
}
