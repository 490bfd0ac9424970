/** Reading statements that are ahead: they are taken whole, compiled to their actions, and accepted
    exactly if they are good. */
module RhsAccepting {
  import opened Wrappers
  import opened RhsLexer
  import opened RhsPrint
  import opened RhsGrammar
  import opened RhsReading
  import opened RhsActions
  import opened RhsStatements
  import opened RhsValues

  predicate StatementAhead(w: Statement, rest: seq<Token>, up0: seq<Token>, err0: bool) {
    Proper(w) && up0 == StatementTokens(w) + rest && (rest == [] || rest[0].kind != ELSE) && !err0
  }

  ghost predicate StatementRead(w: Statement, rest: seq<Token>, sc: Scope, known: string -> bool, up0: seq<Token>, err0: bool, up1: seq<Token>, err1: bool, a: Action) {
    Answers(StatementAhead(w, rest, up0, err0), Good(w, sc, known), err1, up1 == rest && a == ActionOf(w))
  }

  function KeywordOf(w: Statement): Type {
    match w
    case UpdateOf(_, _, _) => UPDATE
    case InsertOf(_, _, _, logical) => if logical then INSERT_LOGICAL else INSERT
    case RetractOf(_) => RETRACT
    case HaltNow => HALT
    case FocusOn(_) => SET_FOCUS
    case IfThen(_, _, _) => IF
    case ForEach(_, _, _) => FOR
    case WhileTrue(_, _) => WHILE
    case SwitchOn(_, _) => SWITCH
    case BreakNow => BREAK
    case ContinueNow => CONTINUE
  }

  /** A statement starts with its keyword. */
  lemma StatementHead(w: Statement)
    ensures StatementTokens(w) != [] && StatementTokens(w)[0] == Word(KeywordOf(w))
  {
    hide ProgramTokens, BlockTokens, ElseTokens, CasesTokens, ExprTokens, SourceTokens, FieldBlock, Spelling;
  }

  lemma KeywordAhead(w: Statement, rest: seq<Token>, up0: seq<Token>, err0: bool)
    requires StatementAhead(w, rest, up0, err0)
    ensures up0 != [] && up0[0].kind == KeywordOf(w)
  {
    StatementHead(w);
    hide StatementTokens, Proper;
    assert up0[0] == StatementTokens(w)[0];
  }

  lemma NoStatement(w: Statement, rest: seq<Token>, sc: Scope, known: string -> bool, up0: seq<Token>, err0: bool, up1: seq<Token>, err1: bool, a: Action)
    requires up0 != [] ==> up0[0].kind !in {UPDATE, INSERT, INSERT_LOGICAL, RETRACT, HALT, SET_FOCUS, IF, FOR, WHILE, SWITCH, BREAK, CONTINUE}
    ensures StatementRead(w, rest, sc, known, up0, err0, up1, err1, a)
  {
    hide StatementAhead, Good, ActionOf;
    if StatementAhead(w, rest, up0, err0) { KeywordAhead(w, rest, up0, err0); }
  }

  // ---- Single statements ----

  lemma SimpleRead(w: Statement, rest: seq<Token>, sc: Scope, known: string -> bool, up0: seq<Token>, err0: bool, kw: Token, up1: seq<Token>, a: Action)
    requires (a == Halt && kw.kind == HALT) || (a == Break && kw.kind == BREAK) || (a == Continue && kw.kind == CONTINUE)
    requires up0 == [kw] + up1
    ensures StatementRead(w, rest, sc, known, up0, err0, up1, err0, a)
  {
    hide StatementAhead;
    if StatementAhead(w, rest, up0, err0) {
      KeywordAhead(w, rest, up0, err0);
      SimpleAhead(w, rest, up0, err0);
      SkipOne(Word(KeywordOf(w)), rest, up0, kw, up1);
    }
  }

  lemma SimpleAhead(w: Statement, rest: seq<Token>, up0: seq<Token>, err0: bool)
    requires StatementAhead(w, rest, up0, err0) && (w.HaltNow? || w.BreakNow? || w.ContinueNow?)
    ensures up0 == [Word(KeywordOf(w))] + rest && !err0
  {
  }

  lemma RetractRead(w: Statement, rest: seq<Token>, sc: Scope, known: string -> bool, up0: seq<Token>, err0: bool, kw: Token, up1: seq<Token>, v: Token, up2: seq<Token>, err2: bool, err3: bool)
    requires kw.kind == RETRACT && up0 == [kw] + up1 && TakesKind(VARIABLE, up1, err0, v, up2, err2) && (v.kind == VARIABLE ==> v.text != "")
    requires err3 == (err2 || (v.text != "" && v.text !in sc.facts))
    ensures StatementRead(w, rest, sc, known, up0, err0, up2, err3, Retract(v.text))
  {
    hide StatementAhead, TakesKind;
    if StatementAhead(w, rest, up0, err0) {
      KeywordAhead(w, rest, up0, err0);
      RetractAhead(w, rest, up0, err0);
      SkipOne(Word(RETRACT), [Var(w.target)] + rest, up0, kw, up1);
      TakeOne(Var(w.target), rest, up1, err0, v, up2, err2);
    }
  }

  lemma RetractAhead(w: Statement, rest: seq<Token>, up0: seq<Token>, err0: bool)
    requires StatementAhead(w, rest, up0, err0) && w.RetractOf?
    ensures up0 == [Word(RETRACT)] + ([Var(w.target)] + rest) && !err0
  {
  }

  lemma FocusRead(w: Statement, rest: seq<Token>, sc: Scope, known: string -> bool, up0: seq<Token>, err0: bool, kw: Token, up1: seq<Token>, lp: Token, up2: seq<Token>, err2: bool,
                  group: Token, up3: seq<Token>, err3: bool, rp: Token, up4: seq<Token>, err4: bool)
    requires kw.kind == SET_FOCUS && up0 == [kw] + up1 && TakesKind(LPAREN, up1, err0, lp, up2, err2)
    requires TakesKind(STRING, up2, err2, group, up3, err3) && TakesKind(RPAREN, up3, err3, rp, up4, err4)
    ensures StatementRead(w, rest, sc, known, up0, err0, up4, err4, SetFocus(group.text))
  {
    hide StatementAhead, TakesKind, Spelling;
    if StatementAhead(w, rest, up0, err0) {
      KeywordAhead(w, rest, up0, err0);
      FocusAhead(w, rest, up0, err0);
      var g := Token(STRING, w.group);
      SkipOne(Word(SET_FOCUS), [Word(LPAREN)] + ([g] + ([Word(RPAREN)] + rest)), up0, kw, up1);
      TakeOne(Word(LPAREN), [g] + ([Word(RPAREN)] + rest), up1, err0, lp, up2, err2);
      TakeOne(g, [Word(RPAREN)] + rest, up2, err2, group, up3, err3);
      TakeOne(Word(RPAREN), rest, up3, err3, rp, up4, err4);
    }
  }

  lemma FocusAhead(w: Statement, rest: seq<Token>, up0: seq<Token>, err0: bool)
    requires StatementAhead(w, rest, up0, err0) && w.FocusOn?
    ensures up0 == [Word(SET_FOCUS)] + ([Word(LPAREN)] + ([Token(STRING, w.group)] + ([Word(RPAREN)] + rest))) && !err0
  {
    hide Spelling;
  }

  function FieldsIn(w: Statement): seq<Assignment> {
    match w
    case UpdateOf(_, fs, _) => fs
    case InsertOf(_, fs, _, _) => fs
    case _ => []
  }

  function TrailingIn(w: Statement): bool {
    match w
    case UpdateOf(_, _, trailing) => trailing
    case InsertOf(_, _, trailing, _) => trailing
    case _ => false
  }

  lemma UpdateRead(w: Statement, rest: seq<Token>, sc: Scope, known: string -> bool, up0: seq<Token>, err0: bool, kw: Token, up1: seq<Token>, v: Token, up2: seq<Token>, err2: bool, err3: bool,
                   up4: seq<Token>, err4: bool, fs: seq<FieldAssignment>)
    requires kw.kind == UPDATE && up0 == [kw] + up1 && TakesKind(VARIABLE, up1, err0, v, up2, err2) && (v.kind == VARIABLE ==> v.text != "")
    requires err3 == (err2 || (v.text != "" && v.text !in sc.facts)) && (err3 ==> err4)
    requires FieldBlockRead(FieldsIn(w), TrailingIn(w), rest, sc, known, up2, err3, up4, err4, fs)
    ensures StatementRead(w, rest, sc, known, up0, err0, up4, err4, Update(v.text, fs))
  {
    hide StatementAhead, TakesKind, Spelling, FieldBlock, ProperFields, GoodFields, AssignmentsOf;
    if StatementAhead(w, rest, up0, err0) {
      KeywordAhead(w, rest, up0, err0);
      ChangeAhead(w, rest, up0, err0);
      var more := FieldBlock(w.fields, w.trailing) + rest;
      SkipOne(Word(UPDATE), [Var(w.target)] + more, up0, kw, up1);
      TakeOne(Var(w.target), more, up1, err0, v, up2, err2);
    }
  }

  lemma ChangeAhead(w: Statement, rest: seq<Token>, up0: seq<Token>, err0: bool)
    requires StatementAhead(w, rest, up0, err0) && (w.UpdateOf? || w.InsertOf?)
    ensures ProperFields(FieldsIn(w)) && !err0
    ensures up0 == [Word(KeywordOf(w))] + ([if w.UpdateOf? then Var(w.target) else Token(IDENTIFIER, w.typeName)] + (FieldBlock(FieldsIn(w), TrailingIn(w)) + rest))
  {
    hide Spelling, FieldBlock, ProperFields;
  }

  lemma InsertRead(w: Statement, rest: seq<Token>, sc: Scope, known: string -> bool, up0: seq<Token>, err0: bool, kw: Token, up1: seq<Token>, name: Token, up2: seq<Token>, err2: bool,
                   up3: seq<Token>, err3: bool, fs: seq<FieldAssignment>, logical: bool)
    requires kw.kind == (if logical then INSERT_LOGICAL else INSERT) && up0 == [kw] + up1 && TakesKind(IDENTIFIER, up1, err0, name, up2, err2)
    requires FieldBlockRead(FieldsIn(w), TrailingIn(w), rest, sc, known, up2, err2, up3, err3, fs)
    ensures StatementRead(w, rest, sc, known, up0, err0, up3, err3, Insert(name.text, fs, logical))
  {
    hide StatementAhead, TakesKind, Spelling, FieldBlock, ProperFields, GoodFields, AssignmentsOf;
    if StatementAhead(w, rest, up0, err0) {
      KeywordAhead(w, rest, up0, err0);
      ChangeAhead(w, rest, up0, err0);
      var more := FieldBlock(w.fields, w.trailing) + rest;
      SkipOne(Word(KeywordOf(w)), [Token(IDENTIFIER, w.typeName)] + more, up0, kw, up1);
      TakeOne(Token(IDENTIFIER, w.typeName), more, up1, err0, name, up2, err2);
    }
  }

  // ---- Programs and blocks ----

  predicate EndsProgram(rest: seq<Token>) { rest == [] || rest[0].kind == RBRACE }

  predicate ProgramAhead(p: seq<Statement>, rest: seq<Token>, up0: seq<Token>, err0: bool) {
    ProperAll(p) && up0 == ProgramTokens(p) + rest && EndsProgram(rest) && !err0
  }

  ghost predicate ProgramRead(p: seq<Statement>, rest: seq<Token>, sc: Scope, known: string -> bool, up0: seq<Token>, err0: bool, up1: seq<Token>, err1: bool, acts: seq<Action>) {
    Answers(ProgramAhead(p, rest, up0, err0), GoodAll(p, sc, known), err1, up1 == rest && acts == ActionsOf(p))
  }

  /** The first `i` statements have been read. */
  ghost predicate ProgramSoFar(p: seq<Statement>, rest: seq<Token>, sc: Scope, known: string -> bool, up0: seq<Token>, err0: bool, i: nat, up1: seq<Token>, err1: bool, acts: seq<Action>) {
    ProgramAhead(p, rest, up0, err0) ==>
      && (err1 ==> !GoodAll(p, sc, known))
      && (!err1 ==> i <= |p| && GoodAll(p[..i], sc, known) && up1 == ProgramTokens(p[i..]) + rest && acts + ActionsOf(p[i..]) == ActionsOf(p))
  }

  function StatementAt(p: seq<Statement>, i: nat): Statement { if i < |p| then p[i] else HaltNow }

  function AfterStatement(p: seq<Statement>, i: nat, rest: seq<Token>): seq<Token> { if i < |p| then ProgramTokens(p[i + 1..]) + rest else rest }

  lemma ProgramStart(p: seq<Statement>, rest: seq<Token>, sc: Scope, known: string -> bool, up0: seq<Token>, err0: bool)
    ensures ProgramSoFar(p, rest, sc, known, up0, err0, 0, up0, err0, [])
  {
    hide StatementTokens, ActionOf, Good, Proper;
    assert p[0..] == p && [] + ActionsOf(p) == ActionsOf(p);
  }

  lemma ProgramTail(p: seq<Statement>, i: nat, rest: seq<Token>)
    requires i <= |p|
    ensures i == |p| ==> ProgramTokens(p[i..]) + rest == rest && ActionsOf(p[i..]) == []
    ensures i < |p| ==> ProgramTokens(p[i..]) + rest == StatementTokens(p[i]) + AfterStatement(p, i, rest)
    ensures i < |p| ==> ActionsOf(p[i..]) == [ActionOf(p[i])] + ActionsOf(p[i + 1..])
  {
    hide StatementTokens, ActionOf;
    if i < |p| { assert p[i..][0] == p[i] && p[i..][1..] == p[i + 1..]; }
  }

  /** Behind a statement of a program comes no `else`. */
  lemma AfterStatementEnds(p: seq<Statement>, i: nat, rest: seq<Token>)
    requires EndsProgram(rest)
    ensures var more := AfterStatement(p, i, rest); more == [] || more[0].kind != ELSE
  {
    hide StatementTokens;
    if i + 1 < |p| {
      StatementHead(p[i + 1]);
      ProgramTail(p, i + 1, rest);
    }
  }

  lemma ProgramGoesOn(p: seq<Statement>, rest: seq<Token>, sc: Scope, known: string -> bool, up0: seq<Token>, err0: bool, i: nat, up1: seq<Token>, err1: bool, acts: seq<Action>,
                      up2: seq<Token>, err2: bool, a: Action)
    requires ProgramSoFar(p, rest, sc, known, up0, err0, i, up1, err1, acts) && up1 != [] && (rest == [] || up1[0].kind != RBRACE) && !err1
    requires StatementRead(StatementAt(p, i), AfterStatement(p, i, rest), sc, known, up1, err1, up2, err2, a)
    ensures ProgramSoFar(p, rest, sc, known, up0, err0, i + 1, up2, err2, acts + [a])
  {
    if ProgramAhead(p, rest, up0, err0) {
      hide StatementTokens, ActionOf, Good, Proper, ProgramTokens, ActionsOf, GoodAll;
      ProgramTail(p, i, rest);
      AfterStatementEnds(p, i, rest);
      assert i < |p|;
      assert StatementAhead(p[i], AfterStatement(p, i, rest), up1, err1);
      GoodNext(p, sc, known, i);
      hide ProperAll, AfterStatement, StatementAhead;
      MovedOver(acts, ActionOf(p[i]), ActionsOf(p[i + 1..]));
    }
  }

  lemma GoodNext(p: seq<Statement>, sc: Scope, known: string -> bool, i: nat)
    requires i < |p| && GoodAll(p[..i], sc, known)
    ensures Good(p[i], sc, known) ==> GoodAll(p[..i + 1], sc, known)
    ensures !Good(p[i], sc, known) ==> !GoodAll(p, sc, known)
  {
    hide Good;
    assert p[..i + 1] == p[..i] + [p[i]];
  }

  lemma ProgramEnds(p: seq<Statement>, rest: seq<Token>, sc: Scope, known: string -> bool, up0: seq<Token>, err0: bool, i: nat, up1: seq<Token>, err1: bool, acts: seq<Action>)
    requires ProgramSoFar(p, rest, sc, known, up0, err0, i, up1, err1, acts) && (err1 || up1 == [] || up1[0].kind == RBRACE)
    ensures ProgramRead(p, rest, sc, known, up0, err0, up1, err1, acts)
  {
    hide StatementTokens, ActionOf, Good, Proper, ProgramTokens, ActionsOf, GoodAll, ProperAll, EndsProgram;
    ProgramIsAhead(p, rest, up0, err0);
    hide ProgramAhead;
    if ProgramAhead(p, rest, up0, err0) && !err1 {
      ProgramTail(p, i, rest);
      ProgramLeft(p, i, rest);
      Whole(p, acts);
    }
  }

  lemma ProgramIsAhead(p: seq<Statement>, rest: seq<Token>, up0: seq<Token>, err0: bool)
    ensures ProgramAhead(p, rest, up0, err0) ==> EndsProgram(rest) && !err0
  {
    hide StatementTokens, Proper, ProgramTokens;
  }

  lemma Whole(p: seq<Statement>, acts: seq<Action>)
    ensures p[..|p|] == p && acts + [] == acts
  {
  }

  lemma ProgramLeft(p: seq<Statement>, i: nat, rest: seq<Token>)
    ensures i < |p| ==> var more := ProgramTokens(p[i..]) + rest; more != [] && more[0].kind != RBRACE
  {
    if i < |p| {
      ProgramTail(p, i, rest);
      StatementHead(p[i]);
      KeywordNoBrace();
      hide StatementTokens, ProgramTokens, KeywordOf, Word;
    }
  }

  lemma KeywordNoBrace()
    ensures forall w: Statement :: Word(KeywordOf(w)).kind != RBRACE
  {
  }

  /** A block and its closing brace. */
  predicate ClosedAhead(p: seq<Statement>, rest: seq<Token>, up0: seq<Token>, err0: bool) {
    ProperAll(p) && up0 == ProgramTokens(p) + ([Word(RBRACE)] + rest) && !err0
  }

  ghost predicate ClosedRead(p: seq<Statement>, rest: seq<Token>, sc: Scope, known: string -> bool, up0: seq<Token>, err0: bool, up1: seq<Token>, err1: bool, acts: seq<Action>) {
    Answers(ClosedAhead(p, rest, up0, err0), GoodAll(p, sc, known), err1, up1 == rest && acts == ActionsOf(p))
  }

  lemma ClosedIsRead(p: seq<Statement>, rest: seq<Token>, sc: Scope, known: string -> bool, up0: seq<Token>, err0: bool, up1: seq<Token>, err1: bool, acts: seq<Action>, rb: Token, up2: seq<Token>, err2: bool)
    requires ProgramRead(p, [Word(RBRACE)] + rest, sc, known, up0, err0, up1, err1, acts) && TakesKind(RBRACE, up1, err1, rb, up2, err2) && (err1 ==> err2)
    ensures ClosedRead(p, rest, sc, known, up0, err0, up2, err2, acts)
  {
    hide ProperAll, GoodAll, ProgramTokens, ActionsOf, TakesKind;
    if ClosedAhead(p, rest, up0, err0) {
      assert ProgramAhead(p, [Word(RBRACE)] + rest, up0, err0);
      if !err1 { TakeOne(Word(RBRACE), rest, up1, err1, rb, up2, err2); }
    }
  }

  predicate BracesAhead(p: seq<Statement>, rest: seq<Token>, up0: seq<Token>, err0: bool) {
    ProperAll(p) && up0 == BlockTokens(p) + rest && !err0
  }

  ghost predicate BracesRead(p: seq<Statement>, rest: seq<Token>, sc: Scope, known: string -> bool, up0: seq<Token>, err0: bool, up1: seq<Token>, err1: bool, acts: seq<Action>) {
    Answers(BracesAhead(p, rest, up0, err0), GoodAll(p, sc, known), err1, up1 == rest && acts == ActionsOf(p))
  }

  lemma BracesAreRead(p: seq<Statement>, rest: seq<Token>, sc: Scope, known: string -> bool, up0: seq<Token>, err0: bool, lb: Token, up1: seq<Token>, err1: bool, up2: seq<Token>, err2: bool, acts: seq<Action>)
    requires TakesKind(LBRACE, up0, err0, lb, up1, err1) && ClosedRead(p, rest, sc, known, up1, err1, up2, err2, acts)
    ensures BracesRead(p, rest, sc, known, up0, err0, up2, err2, acts)
  {
    hide ProperAll, GoodAll, ProgramTokens, ActionsOf, TakesKind;
    if BracesAhead(p, rest, up0, err0) {
      var more := ProgramTokens(p) + ([Word(RBRACE)] + rest);
      assert up0 == [Word(LBRACE)] + more;
      TakeOne(Word(LBRACE), more, up0, err0, lb, up1, err1);
    }
  }

  // ---- If and while ----

  function TestIn(w: Statement): Expr {
    match w
    case IfThen(e, _, _) => e
    case WhileTrue(e, _) => e
    case SwitchOn(e, _) => e
    case _ => Text("")
  }

  function BodyIn(w: Statement): seq<Statement> {
    match w
    case IfThen(_, thens, _) => thens
    case ForEach(_, _, body) => body
    case WhileTrue(_, body) => body
    case _ => []
  }

  function OtherIn(w: Statement): ElsePart { if w.IfThen? then w.other else NoElse }

  predicate ElseAhead(o: ElsePart, rest: seq<Token>, up0: seq<Token>, err0: bool) {
    ProperElse(o) && up0 == ElseTokens(o) + rest && (rest == [] || rest[0].kind != ELSE) && !err0
  }

  ghost predicate ElseRead(o: ElsePart, rest: seq<Token>, sc: Scope, known: string -> bool, up0: seq<Token>, err0: bool, up1: seq<Token>, err1: bool, acts: seq<Action>) {
    Answers(ElseAhead(o, rest, up0, err0), GoodElse(o, sc, known), err1, up1 == rest && acts == ElseActions(o))
  }

  function AfterThen(w: Statement, rest: seq<Token>): seq<Token> { ElseTokens(OtherIn(w)) + rest }

  lemma IfAhead(w: Statement, rest: seq<Token>, up0: seq<Token>, err0: bool, kw: Token, up1: seq<Token>)
    requires StatementAhead(w, rest, up0, err0) && kw.kind == IF && up0 == [kw] + up1
    ensures w.IfThen? && TestAhead(w.test, BlockTokens(w.thens) + AfterThen(w, rest), up1, err0)
    ensures ProperAll(w.thens) && ProperElse(w.other) && (rest == [] || rest[0].kind != ELSE) && !err0
  {
    NoElseFollows(w, rest, up0, err0);
    hide *;
    KeywordAhead(w, rest, up0, err0);
    StatementIs(w, rest, up0, err0);
    IfIs(w, rest);
    ProperIf(w);
    Regrouped(Word(IF), ExprTokens(w.test), BlockTokens(w.thens) + ElseTokens(w.other), rest);
    Reassociated(BlockTokens(w.thens), ElseTokens(w.other), rest);
    SkipOne(Word(IF), ExprTokens(w.test) + (BlockTokens(w.thens) + AfterThen(w, rest)), up0, kw, up1);
    TestIsAhead(w.test, w.thens, AfterThen(w, rest), up1, err0);
  }

  lemma NoElseFollows(w: Statement, rest: seq<Token>, up0: seq<Token>, err0: bool)
    requires StatementAhead(w, rest, up0, err0)
    ensures rest == [] || rest[0].kind != ELSE
  {
    hide Proper, StatementTokens;
  }

  lemma IfIs(w: Statement, rest: seq<Token>)
    ensures KeywordOf(w) == IF ==> w.IfThen?
    ensures w.IfThen? ==> StatementTokens(w) == [Word(IF)] + (ExprTokens(w.test) + (BlockTokens(w.thens) + ElseTokens(w.other))) && AfterThen(w, rest) == ElseTokens(w.other) + rest
  {
    hide ExprTokens, BlockTokens, ElseTokens, Word;
  }

  lemma ProperIf(w: Statement)
    requires Proper(w)
    ensures w.IfThen? ==> Full(w.test) && ProperAll(w.thens) && ProperElse(w.other)
    ensures w.WhileTrue? ==> Full(w.test) && ProperAll(w.body)
    ensures w.ForEach? ==> ProperSource(w.source) && ProperAll(w.body)
    ensures w.SwitchOn? ==> Full(w.test) && ProperCases(w.cases)
  {
    hide Full;
  }

  lemma IfRead(w: Statement, rest: seq<Token>, sc: Scope, known: string -> bool, up0: seq<Token>, err0: bool, kw: Token, up1: seq<Token>, up2: seq<Token>, err2: bool, compiled: bool, c: Condition,
               up3: seq<Token>, err3: bool, thens: seq<Action>, up4: seq<Token>, err4: bool, others: seq<Action>, a: Action)
    requires kw.kind == IF && up0 == [kw] + up1 && TestRead(TestIn(w), BlockTokens(BodyIn(w)) + AfterThen(w, rest), sc, up1, err0, up2, err2, compiled, c)
    requires compiled ==> BracesRead(BodyIn(w), AfterThen(w, rest), sc, known, up2, err2, up3, err3, thens) && ElseRead(OtherIn(w), rest, sc, known, up3, err3, up4, err4, others)
    requires compiled ==> (err2 ==> err3) && (err3 ==> err4) && a == If(c, thens, others)
    ensures StatementRead(w, rest, sc, known, up0, err0, up4, err4, a)
  {
    hide StatementAhead, TestAhead, BlockTokens, ElseTokens, ProperAll, ProperElse, GoodAll, GoodElse, GoodTest, ActionsOf, ElseActions, ConditionOf;
    if StatementAhead(w, rest, up0, err0) { IfAhead(w, rest, up0, err0, kw, up1); }
  }

  lemma NoElseRead(o: ElsePart, rest: seq<Token>, sc: Scope, known: string -> bool, up0: seq<Token>, err0: bool)
    requires up0 == [] || up0[0].kind != ELSE
    ensures ElseRead(o, rest, sc, known, up0, err0, up0, err0, [])
  {
    hide BlockTokens, StatementTokens, Proper, GoodAll, Good, ActionsOf, ActionOf;
    assert [] + rest == rest;
  }

  function NestedIn(o: ElsePart): Statement { if o.ElseIf? then o.s else HaltNow }

  function BlockIn(o: ElsePart): seq<Statement> { if o.ElseBlock? then o.body else [] }

  lemma ElseTail(o: ElsePart, rest: seq<Token>, up0: seq<Token>, err0: bool, el: Token, up1: seq<Token>)
    requires ElseAhead(o, rest, up0, err0) && el.kind == ELSE && up0 == [el] + up1
    ensures o.ElseBlock? ==> BracesAhead(o.body, rest, up1, err0) && up1 != [] && up1[0].kind == LBRACE
    ensures o.ElseIf? ==> StatementAhead(o.s, rest, up1, err0) && up1 != [] && up1[0].kind == IF
    ensures !o.NoElse?
  {
    hide Proper, ProgramTokens, StatementTokens;
    assert o.NoElse? ==> up0 == rest;
    assert up0[0] == el;
    match o
    case NoElse =>
    case ElseBlock(body) => SkipOne(Word(ELSE), BlockTokens(body) + rest, up0, el, up1);
    case ElseIf(s) =>
      StatementHead(s);
      SkipOne(Word(ELSE), StatementTokens(s) + rest, up0, el, up1);
      assert up1[0] == StatementTokens(s)[0];
  }

  lemma ElseIfRead(o: ElsePart, rest: seq<Token>, sc: Scope, known: string -> bool, up0: seq<Token>, err0: bool, el: Token, up1: seq<Token>, up2: seq<Token>, err2: bool, a: Action)
    requires el.kind == ELSE && up0 == [el] + up1 && up1 != [] && up1[0].kind == IF && StatementRead(NestedIn(o), rest, sc, known, up1, err0, up2, err2, a)
    ensures ElseRead(o, rest, sc, known, up0, err0, up2, err2, [] + [a])
  {
    hide ElseAhead, StatementAhead, BracesAhead, GoodAll, Good, ActionsOf, ActionOf;
    if ElseAhead(o, rest, up0, err0) { ElseTail(o, rest, up0, err0, el, up1); }
  }

  lemma ElseBlockRead(o: ElsePart, rest: seq<Token>, sc: Scope, known: string -> bool, up0: seq<Token>, err0: bool, el: Token, up1: seq<Token>, up2: seq<Token>, err2: bool, acts: seq<Action>)
    requires el.kind == ELSE && up0 == [el] + up1 && (up1 == [] || up1[0].kind != IF) && BracesRead(BlockIn(o), rest, sc, known, up1, err0, up2, err2, acts)
    ensures ElseRead(o, rest, sc, known, up0, err0, up2, err2, acts)
  {
    hide ElseAhead, StatementAhead, BracesAhead, GoodAll, Good, ActionsOf, ActionOf;
    if ElseAhead(o, rest, up0, err0) { ElseTail(o, rest, up0, err0, el, up1); }
  }

  lemma WhileAhead(w: Statement, rest: seq<Token>, up0: seq<Token>, err0: bool, kw: Token, up1: seq<Token>)
    requires StatementAhead(w, rest, up0, err0) && kw.kind == WHILE && up0 == [kw] + up1
    ensures w.WhileTrue? && TestAhead(w.test, BlockTokens(w.body) + rest, up1, err0) && ProperAll(w.body) && !err0
  {
    hide *;
    KeywordAhead(w, rest, up0, err0);
    StatementIs(w, rest, up0, err0);
    WhileIs(w);
    ProperIf(w);
    Regrouped(Word(WHILE), ExprTokens(w.test), BlockTokens(w.body), rest);
    SkipOne(Word(WHILE), ExprTokens(w.test) + (BlockTokens(w.body) + rest), up0, kw, up1);
    TestIsAhead(w.test, w.body, rest, up1, err0);
  }

  lemma WhileIs(w: Statement)
    ensures KeywordOf(w) == WHILE ==> w.WhileTrue?
    ensures w.WhileTrue? ==> StatementTokens(w) == [Word(WHILE)] + (ExprTokens(w.test) + BlockTokens(w.body))
  {
    hide ExprTokens, BlockTokens, Word;
  }

  /** A condition in front of a block. */
  lemma TestIsAhead(w: Expr, p: seq<Statement>, rest: seq<Token>, up0: seq<Token>, err0: bool)
    requires Full(w) && up0 == ExprTokens(w) + (BlockTokens(p) + rest) && !err0
    ensures TestAhead(w, BlockTokens(p) + rest, up0, err0)
  {
    hide Full, ExprTokens, BlockTokens;
    BlockHead(p, rest);
  }

  lemma WhileRead(w: Statement, rest: seq<Token>, sc: Scope, known: string -> bool, up0: seq<Token>, err0: bool, kw: Token, up1: seq<Token>, up2: seq<Token>, err2: bool, compiled: bool, c: Condition,
                  up3: seq<Token>, err3: bool, body: seq<Action>, a: Action)
    requires kw.kind == WHILE && up0 == [kw] + up1 && TestRead(TestIn(w), BlockTokens(BodyIn(w)) + rest, sc, up1, err0, up2, err2, compiled, c)
    requires compiled ==> BracesRead(BodyIn(w), rest, sc, known, up2, err2, up3, err3, body) && (err2 ==> err3) && a == While(c, body)
    ensures StatementRead(w, rest, sc, known, up0, err0, up3, err3, a)
  {
    hide StatementAhead, TestAhead, BlockTokens, ProperAll, GoodAll, GoodTest, ActionsOf, ConditionOf;
    if StatementAhead(w, rest, up0, err0) { WhileAhead(w, rest, up0, err0, kw, up1); }
  }

  // ---- For ----

  predicate SourceAhead(s: Source, rest: seq<Token>, up0: seq<Token>, err0: bool) {
    ProperSource(s) && up0 == SourceTokens(s) + rest && Follows(rest, {LBRACE}) && !err0
  }

  ghost predicate SourceRead(s: Source, rest: seq<Token>, sc: Scope, up0: seq<Token>, err0: bool, up1: seq<Token>, err1: bool, ok: bool, r: Source) {
    SourceAhead(s, rest, up0, err0) ==> ok && (err1 <==> !SourceScoped(s, sc)) && (!err1 ==> up1 == rest && r == s)
  }

  lemma NoSource(s: Source, rest: seq<Token>, sc: Scope, up0: seq<Token>, err0: bool, up1: seq<Token>, err1: bool, ok: bool, r: Source)
    requires up0 == [] || (up0[0].kind != LPAREN && up0[0].kind != VARIABLE)
    ensures SourceRead(s, rest, sc, up0, err0, up1, err1, ok, r)
  {
    hide VarsTokens;
  }

  lemma VariableRead(s: Source, rest: seq<Token>, sc: Scope, up0: seq<Token>, err0: bool, v: Token, up1: seq<Token>, err1: bool, r: Source)
    requires v.kind == VARIABLE && v.text != "" && up0 == [v] + up1 && (up1 == [] || up1[0].kind != DOT)
    requires err1 == (err0 || (v.text != "" && v.text !in Sources(sc))) && r == Variable(v.text, "")
    ensures SourceRead(s, rest, sc, up0, err0, up1, err1, true, r)
  {
    if SourceAhead(s, rest, up0, err0) {
      VariableShape(s, rest, up0, err0, v, up1);
    }
  }

  lemma VariableShape(s: Source, rest: seq<Token>, up0: seq<Token>, err0: bool, v: Token, up1: seq<Token>)
    requires SourceAhead(s, rest, up0, err0) && v.kind == VARIABLE && up0 == [v] + up1
    ensures s.Variable? && v == Var(s.name) && up1 == if s.field == "" then rest else [Word(DOT)] + ([Token(IDENTIFIER, s.field)] + rest)
  {
    hide VarsTokens, Spelling;
    assert s.ListOf? ==> up0[0] == Word(LPAREN);
    assert up0[0] == v;
    match s
    case ListOf(_) =>
    case Variable(x, field) =>
      SkipOne(Var(x), if field == "" then rest else [Word(DOT)] + ([Token(IDENTIFIER, field)] + rest), up0, v, up1);
  }

  lemma SourceFieldRead(s: Source, rest: seq<Token>, sc: Scope, up0: seq<Token>, err0: bool, v: Token, up1: seq<Token>, err1: bool, dot: Token, up2: seq<Token>, field: Token, up3: seq<Token>, err3: bool)
    requires v.kind == VARIABLE && v.text != "" && up0 == [v] + up1 && err1 == (err0 || (v.text != "" && v.text !in Sources(sc)))
    requires dot.kind == DOT && up1 == [dot] + up2 && TakesKind(IDENTIFIER, up2, err1, field, up3, err3) && (err1 ==> err3)
    ensures SourceRead(s, rest, sc, up0, err0, up3, err3, true, Variable(v.text, field.text))
  {
    hide TakesKind, SourceTokens;
    if SourceAhead(s, rest, up0, err0) {
      VariableShape(s, rest, up0, err0, v, up1);
      assert up1[0] == dot;
      var more := [Token(IDENTIFIER, s.field)] + rest;
      SkipOne(Word(DOT), more, up1, dot, up2);
      TakeOne(Token(IDENTIFIER, s.field), rest, up2, err1, field, up3, err3);
    }
  }

  predicate VarsAhead(vars: seq<string>, rest: seq<Token>, up0: seq<Token>, err0: bool) {
    vars != [] && up0 == VarsTokens(vars) + rest && Follows(rest, {RPAREN}) && !err0
  }

  predicate AllIn(vars: seq<string>, names: set<string>) { forall i :: 0 <= i < |vars| ==> vars[i] in names }

  ghost predicate VarsRead(vars: seq<string>, rest: seq<Token>, sc: Scope, up0: seq<Token>, err0: bool, up1: seq<Token>, err1: bool, us: seq<string>) {
    Answers(VarsAhead(vars, rest, up0, err0), AllIn(vars, sc.facts), err1, up1 == rest && us == vars)
  }

  /** The first `i` variables of a list have been read. */
  ghost predicate VarsSoFar(vars: seq<string>, rest: seq<Token>, sc: Scope, up0: seq<Token>, err0: bool, i: nat, up1: seq<Token>, err1: bool, us: seq<string>) {
    VarsAhead(vars, rest, up0, err0) ==>
      && (err1 ==> !AllIn(vars, sc.facts))
      && (!err1 ==> i <= |vars| && AllIn(vars[..i], sc.facts) && up1 == MoreVars(vars[i..]) + rest && us == vars[..i])
  }

  lemma VarsTail(vars: seq<string>, i: nat, rest: seq<Token>)
    requires i <= |vars|
    ensures MoreVars(vars[i..]) + rest == if i < |vars| then [Word(COMMA)] + ([Var(vars[i])] + (MoreVars(vars[i + 1..]) + rest)) else rest
  {
    hide Spelling;
    if i < |vars| { assert vars[i..][0] == vars[i] && vars[i..][1..] == vars[i + 1..]; }
  }

  lemma FirstVarRead(vars: seq<string>, rest: seq<Token>, sc: Scope, up0: seq<Token>, err0: bool, v: Token, up1: seq<Token>, err1: bool, err2: bool)
    requires TakesKind(VARIABLE, up0, err0, v, up1, err1) && (v.kind == VARIABLE ==> v.text != "") && err2 == (err1 || (v.text != "" && v.text !in sc.facts))
    ensures VarsSoFar(vars, rest, sc, up0, err0, 1, up1, err2, [v.text])
  {
    hide TakesKind, MoreVars, Spelling;
    if VarsAhead(vars, rest, up0, err0) {
      assert VarsTokens(vars) + rest == [Var(vars[0])] + (MoreVars(vars[1..]) + rest);
      TakeOne(Var(vars[0]), MoreVars(vars[1..]) + rest, up0, err0, v, up1, err1);
      assert vars[..1] == [vars[0]];
    }
  }

  lemma VarsGoOn(vars: seq<string>, rest: seq<Token>, sc: Scope, up0: seq<Token>, err0: bool, i: nat, up1: seq<Token>, err1: bool, us: seq<string>,
                 comma: Token, up2: seq<Token>, v: Token, up3: seq<Token>, err3: bool, err4: bool)
    requires VarsSoFar(vars, rest, sc, up0, err0, i, up1, err1, us) && comma.kind == COMMA && up1 == [comma] + up2
    requires TakesKind(VARIABLE, up2, err1, v, up3, err3) && (err1 ==> err3) && (v.kind == VARIABLE ==> v.text != "")
    requires err4 == (err3 || (v.text != "" && v.text !in sc.facts))
    ensures VarsSoFar(vars, rest, sc, up0, err0, i + 1, up3, err4, us + [v.text])
  {
    hide TakesKind, MoreVars, VarsTokens, Spelling;
    if VarsAhead(vars, rest, up0, err0) && !err1 {
      VarsTail(vars, i, rest);
      assert i < |vars|;
      var more := MoreVars(vars[i + 1..]) + rest;
      SkipOne(Word(COMMA), [Var(vars[i])] + more, up1, comma, up2);
      TakeOne(Var(vars[i]), more, up2, err1, v, up3, err3);
      assert vars[..i + 1] == vars[..i] + [vars[i]];
    }
  }

  lemma VarsEnd(vars: seq<string>, rest: seq<Token>, sc: Scope, up0: seq<Token>, err0: bool, i: nat, up1: seq<Token>, err1: bool, us: seq<string>)
    requires VarsSoFar(vars, rest, sc, up0, err0, i, up1, err1, us) && (up1 == [] || up1[0].kind != COMMA)
    ensures VarsRead(vars, rest, sc, up0, err0, up1, err1, us)
  {
    hide MoreVars, VarsTokens, Spelling;
    if VarsAhead(vars, rest, up0, err0) && !err1 {
      VarsTail(vars, i, rest);
      assert vars[..|vars|] == vars;
    }
  }

  function VarsIn(s: Source): seq<string> { if s.ListOf? then s.vars else [] }

  lemma ListRead(s: Source, rest: seq<Token>, sc: Scope, up0: seq<Token>, err0: bool, lp: Token, up1: seq<Token>, up2: seq<Token>, err2: bool, us: seq<string>, rp: Token, up3: seq<Token>, err3: bool)
    requires lp.kind == LPAREN && up0 == [lp] + up1 && VarsRead(VarsIn(s), [Word(RPAREN)] + rest, sc, up1, err0, up2, err2, us)
    requires TakesKind(RPAREN, up2, err2, rp, up3, err3) && (err2 ==> err3)
    ensures SourceRead(s, rest, sc, up0, err0, up3, err3, true, ListOf(us))
  {
    hide TakesKind, VarsTokens;
    if SourceAhead(s, rest, up0, err0) {
      ListShape(s, rest, up0, err0, lp, up1);
      if !err2 { TakeOne(Word(RPAREN), rest, up2, err2, rp, up3, err3); }
    }
  }

  lemma ListShape(s: Source, rest: seq<Token>, up0: seq<Token>, err0: bool, lp: Token, up1: seq<Token>)
    requires SourceAhead(s, rest, up0, err0) && lp.kind == LPAREN && up0 == [lp] + up1
    ensures s.ListOf? && VarsAhead(s.vars, [Word(RPAREN)] + rest, up1, err0)
  {
    hide VarsTokens;
    assert s.Variable? ==> up0[0] == Var(s.name);
    assert up0[0] == lp;
    match s
    case ListOf(vars) => SkipOne(Word(LPAREN), VarsTokens(vars) + ([Word(RPAREN)] + rest), up0, lp, up1);
    case Variable(x, _) =>
  }

  function SourceIn(w: Statement): Source { if w.ForEach? then w.source else ListOf([]) }

  ghost predicate HeaderRead(w: Statement, rest: seq<Token>, sc: Scope, up0: seq<Token>, err0: bool, up1: seq<Token>, err1: bool, ok: bool, x: string, r: Source) {
    StatementAhead(w, rest, up0, err0) && w.ForEach? ==>
      ok && (err1 <==> !SourceScoped(w.source, sc)) && (!err1 ==> up1 == BlockTokens(w.body) + rest && x == w.x && r == w.source)
  }

  lemma HeaderIsRead(w: Statement, rest: seq<Token>, sc: Scope, up0: seq<Token>, err0: bool, kw: Token, up1: seq<Token>, v: Token, up2: seq<Token>, err2: bool,
                     kwIn: Token, up3: seq<Token>, err3: bool, up4: seq<Token>, err4: bool, ok: bool, r: Source)
    requires kw.kind == FOR && up0 == [kw] + up1 && TakesKind(VARIABLE, up1, err0, v, up2, err2) && TakesKind(IN, up2, err2, kwIn, up3, err3)
    requires SourceRead(SourceIn(w), BlockTokens(BodyIn(w)) + rest, sc, up3, err3, up4, err4, ok, r)
    ensures HeaderRead(w, rest, sc, up0, err0, up4, err4, ok, v.text, r)
  {
    hide StatementAhead, TakesKind, SourceTokens, BlockTokens, SourceScoped, Spelling;
    if StatementAhead(w, rest, up0, err0) && w.ForEach? {
      ForAhead(w, rest, up0, err0);
      var after := BlockTokens(w.body) + rest;
      var more := SourceTokens(w.source) + after;
      SkipOne(Word(FOR), [Var(w.x)] + ([Word(IN)] + more), up0, kw, up1);
      TakeOne(Var(w.x), [Word(IN)] + more, up1, err0, v, up2, err2);
      TakeOne(Word(IN), more, up2, err2, kwIn, up3, err3);
      BlockHead(w.body, rest);
    }
  }

  lemma BlockHead(p: seq<Statement>, rest: seq<Token>)
    ensures Follows(BlockTokens(p) + rest, {LBRACE})
  {
    hide ProgramTokens;
  }

  lemma ForAhead(w: Statement, rest: seq<Token>, up0: seq<Token>, err0: bool)
    requires StatementAhead(w, rest, up0, err0) && w.ForEach?
    ensures up0 == [Word(FOR)] + ([Var(w.x)] + ([Word(IN)] + (SourceTokens(w.source) + (BlockTokens(w.body) + rest)))) && !err0
    ensures ProperSource(w.source) && ProperAll(w.body)
  {
    ForTokens(w);
    ProperIf(w);
    hide *;
    ForJoin(Word(FOR), Var(w.x), Word(IN), SourceTokens(w.source), BlockTokens(w.body), rest);
    StatementIs(w, rest, up0, err0);
  }

  lemma StatementIs(w: Statement, rest: seq<Token>, up0: seq<Token>, err0: bool)
    requires StatementAhead(w, rest, up0, err0)
    ensures Proper(w) && up0 == StatementTokens(w) + rest && !err0
  {
    hide Proper, StatementTokens;
  }

  lemma ForTokens(w: Statement)
    requires w.ForEach?
    ensures StatementTokens(w) == [Word(FOR)] + ([Var(w.x)] + ([Word(IN)] + (SourceTokens(w.source) + BlockTokens(w.body))))
  {
    hide SourceTokens, BlockTokens, Word, Var;
  }

  lemma ForJoin(a: Token, b: Token, c: Token, ss: seq<Token>, bs: seq<Token>, rest: seq<Token>)
    ensures [a] + ([b] + ([c] + (ss + bs))) + rest == [a] + ([b] + ([c] + (ss + (bs + rest))))
  {
    assert ss + bs + rest == ss + (bs + rest);
    assert [c] + (ss + bs) + rest == [c] + (ss + bs + rest);
    assert [b] + ([c] + (ss + bs)) + rest == [b] + ([c] + (ss + bs) + rest);
    assert [a] + ([b] + ([c] + (ss + bs))) + rest == [a] + ([b] + ([c] + (ss + bs)) + rest);
  }

  lemma ForBody(p: seq<Statement>, rest: seq<Token>, up1: seq<Token>, err1: bool, lb: Token, up2: seq<Token>, err2: bool)
    requires ProperAll(p) && up1 == BlockTokens(p) + rest && !err1 && TakesKind(LBRACE, up1, err1, lb, up2, err2)
    ensures ProgramAhead(p, [Word(RBRACE)] + rest, up2, err2)
  {
    hide ProperAll, ProgramTokens, TakesKind;
    var after := [Word(RBRACE)] + rest;
    assert up1 == [Word(LBRACE)] + (ProgramTokens(p) + after);
    TakeOne(Word(LBRACE), ProgramTokens(p) + after, up1, err1, lb, up2, err2);
  }

  /** The scope in the body of a loop. */
  function InnerScope(sc: Scope, x: string): Scope { sc.(facts := sc.facts + {x}) }

  lemma ForRead(w: Statement, rest: seq<Token>, sc: Scope, known: string -> bool, up0: seq<Token>, err0: bool, up1: seq<Token>, err1: bool, ok: bool, x: string, source: Source,
                lb: Token, up2: seq<Token>, err2: bool, up3: seq<Token>, err3: bool, body: seq<Action>, rb: Token, up4: seq<Token>, err4: bool, a: Action)
    requires up0 != [] && up0[0].kind == FOR && HeaderRead(w, rest, sc, up0, err0, up1, err1, ok, x, source)
    requires ok ==> TakesKind(LBRACE, up1, err1, lb, up2, err2) && ProgramRead(BodyIn(w), [Word(RBRACE)] + rest, InnerScope(sc, x), known, up2, err2, up3, err3, body)
    requires ok ==> TakesKind(RBRACE, up3, err3, rb, up4, err4) && (err1 ==> err2) && (err2 ==> err3) && (err3 ==> err4) && a == For(x, source, body)
    ensures StatementRead(w, rest, sc, known, up0, err0, up4, err4, a)
  {
    hide StatementAhead, ProgramAhead, TakesKind, GoodAll, ProgramTokens, ActionsOf, SourceScoped, Spelling, SourceTokens, BlockTokens;
    if StatementAhead(w, rest, up0, err0) {
      KeywordAhead(w, rest, up0, err0);
      ForAhead(w, rest, up0, err0);
      if !err1 {
        ForBody(w.body, rest, up1, err1, lb, up2, err2);
        if !err3 { TakeOne(Word(RBRACE), rest, up3, err3, rb, up4, err4); }
      }
    }
  }

  // ---- Switch ----

  predicate CaseAhead(c: CasePart, rest: seq<Token>, up0: seq<Token>, err0: bool) { ProperCase(c) && up0 == CaseTokens(c) + rest && !err0 }

  ghost predicate CaseRead(c: CasePart, rest: seq<Token>, sc: Scope, known: string -> bool, up0: seq<Token>, err0: bool, up1: seq<Token>, err1: bool, ok: bool, r: SwitchCase) {
    CaseAhead(c, rest, up0, err0) ==> ok && (err1 <==> !GoodCase(c, sc, known)) && (!err1 ==> up1 == rest && r == CaseOf(c))
  }

  lemma CaseHead(c: CasePart)
    ensures CaseTokens(c) != [] && CaseTokens(c)[0].kind == if c.value.Some? then CASE else DEFAULT
  {
    hide BlockTokens, ExprTokens, Spelling;
  }

  lemma NoCase(c: CasePart, rest: seq<Token>, sc: Scope, known: string -> bool, up0: seq<Token>, err0: bool, up1: seq<Token>, err1: bool, ok: bool, r: SwitchCase)
    requires up0 == [] || (up0[0].kind != CASE && up0[0].kind != DEFAULT)
    ensures CaseRead(c, rest, sc, known, up0, err0, up1, err1, ok, r)
  {
    hide CaseTokens, ProperCase, GoodCase, CaseOf;
    CaseHead(c);
  }

  function ValueIn(c: CasePart): Expr { if c.value.Some? then c.value.value else Text("") }

  lemma BranchAhead(c: CasePart, rest: seq<Token>, up0: seq<Token>, err0: bool, kw: Token, up1: seq<Token>)
    requires CaseAhead(c, rest, up0, err0) && kw.kind == CASE && up0 == [kw] + up1
    ensures c.value.Some? && TestAhead(c.value.value, BlockTokens(c.body) + rest, up1, err0) && ProperAll(c.body) && !err0
  {
    CaseHead(c);
    hide Spelling, ExprTokens, Full, ProgramTokens, Proper;
    assert up0[0] == CaseTokens(c)[0];
    SkipOne(Word(CASE), ExprTokens(ValueIn(c)) + (BlockTokens(c.body) + rest), up0, kw, up1);
  }

  lemma BranchRead(c: CasePart, rest: seq<Token>, sc: Scope, known: string -> bool, up0: seq<Token>, err0: bool, kw: Token, up1: seq<Token>, up2: seq<Token>, err2: bool, compiled: bool, e: Condition,
                   up3: seq<Token>, err3: bool, acts: seq<Action>, ok: bool, r: SwitchCase)
    requires kw.kind == CASE && up0 == [kw] + up1 && TestRead(ValueIn(c), BlockTokens(c.body) + rest, sc, up1, err0, up2, err2, compiled, e)
    requires compiled ==> BracesRead(c.body, rest, sc, known, up2, err2, up3, err3, acts) && (err2 ==> err3) && ok && r == SwitchCase(Some(e), acts)
    ensures CaseRead(c, rest, sc, known, up0, err0, up3, err3, ok, r)
  {
    hide CaseAhead, TestAhead, BlockTokens, ProperAll, GoodAll, GoodTest, ActionsOf, ConditionOf;
    if CaseAhead(c, rest, up0, err0) { BranchAhead(c, rest, up0, err0, kw, up1); }
  }

  lemma DefaultAhead(c: CasePart, rest: seq<Token>, up0: seq<Token>, err0: bool, kw: Token, up1: seq<Token>)
    requires CaseAhead(c, rest, up0, err0) && kw.kind == DEFAULT && up0 == [kw] + up1
    ensures c.value.None? && BracesAhead(c.body, rest, up1, err0)
  {
    CaseHead(c);
    hide Spelling, ExprTokens, Full, ProgramTokens, Proper;
    assert up0[0] == CaseTokens(c)[0];
    SkipOne(Word(DEFAULT), BlockTokens(c.body) + rest, up0, kw, up1);
  }

  lemma DefaultRead(c: CasePart, rest: seq<Token>, sc: Scope, known: string -> bool, up0: seq<Token>, err0: bool, kw: Token, up1: seq<Token>, up2: seq<Token>, err2: bool, acts: seq<Action>)
    requires kw.kind == DEFAULT && up0 == [kw] + up1 && BracesRead(c.body, rest, sc, known, up1, err0, up2, err2, acts)
    ensures CaseRead(c, rest, sc, known, up0, err0, up2, err2, true, SwitchCase(None, acts))
  {
    hide CaseAhead, BracesAhead, GoodAll, GoodTest, ActionsOf, ConditionOf;
    if CaseAhead(c, rest, up0, err0) { DefaultAhead(c, rest, up0, err0, kw, up1); }
  }

  predicate CasesAhead(cs: seq<CasePart>, rest: seq<Token>, up0: seq<Token>, err0: bool) {
    ProperCases(cs) && up0 == CasesTokens(cs) + rest && Follows(rest, {RBRACE}) && !err0
  }

  ghost predicate CasesRead(cs: seq<CasePart>, rest: seq<Token>, sc: Scope, known: string -> bool, up0: seq<Token>, err0: bool, up1: seq<Token>, err1: bool, ok: bool, rs: seq<SwitchCase>) {
    CasesAhead(cs, rest, up0, err0) ==> ok && (err1 <==> !GoodCases(cs, sc, known)) && (!err1 ==> up1 == rest && rs == CasesOf(cs))
  }

  /** The first `i` cases have been read. */
  ghost predicate CasesSoFar(cs: seq<CasePart>, rest: seq<Token>, sc: Scope, known: string -> bool, up0: seq<Token>, err0: bool, i: nat, up1: seq<Token>, err1: bool, rs: seq<SwitchCase>) {
    CasesAhead(cs, rest, up0, err0) ==>
      && (err1 ==> !GoodCases(cs, sc, known))
      && (!err1 ==> i <= |cs| && GoodCases(cs[..i], sc, known) && up1 == CasesTokens(cs[i..]) + rest && rs + CasesOf(cs[i..]) == CasesOf(cs))
  }

  function CaseAt(cs: seq<CasePart>, i: nat): CasePart { if i < |cs| then cs[i] else CasePart(None, []) }

  function AfterCase(cs: seq<CasePart>, i: nat, rest: seq<Token>): seq<Token> { if i < |cs| then CasesTokens(cs[i + 1..]) + rest else rest }

  lemma CasesStart(cs: seq<CasePart>, rest: seq<Token>, sc: Scope, known: string -> bool, up0: seq<Token>, err0: bool)
    ensures CasesSoFar(cs, rest, sc, known, up0, err0, 0, up0, err0, [])
  {
    hide CaseTokens, CaseOf, GoodCase, ProperCase;
    assert cs[0..] == cs && [] + CasesOf(cs) == CasesOf(cs);
  }

  lemma CasesTail(cs: seq<CasePart>, i: nat, rest: seq<Token>)
    requires i <= |cs|
    ensures i == |cs| ==> CasesTokens(cs[i..]) + rest == rest && CasesOf(cs[i..]) == []
    ensures i < |cs| ==> CasesTokens(cs[i..]) + rest == CaseTokens(cs[i]) + AfterCase(cs, i, rest)
    ensures i < |cs| ==> CasesOf(cs[i..]) == [CaseOf(cs[i])] + CasesOf(cs[i + 1..])
  {
    hide CaseTokens, CaseOf;
    if i < |cs| { assert cs[i..][0] == cs[i] && cs[i..][1..] == cs[i + 1..]; }
  }

  lemma CasesGoOn(cs: seq<CasePart>, rest: seq<Token>, sc: Scope, known: string -> bool, up0: seq<Token>, err0: bool, i: nat, up1: seq<Token>, err1: bool, rs: seq<SwitchCase>,
                  up2: seq<Token>, err2: bool, ok: bool, r: SwitchCase)
    requires CasesSoFar(cs, rest, sc, known, up0, err0, i, up1, err1, rs) && up1 != [] && up1[0].kind != RBRACE && !err1
    requires CaseRead(CaseAt(cs, i), AfterCase(cs, i, rest), sc, known, up1, err1, up2, err2, ok, r)
    ensures CasesSoFar(cs, rest, sc, known, up0, err0, i + 1, up2, err2, rs + [r])
    ensures CasesAhead(cs, rest, up0, err0) ==> ok
  {
    if CasesAhead(cs, rest, up0, err0) {
      hide CaseTokens, CaseOf, GoodCase, ProperCase, CasesTokens, CasesOf, GoodCases;
      CasesTail(cs, i, rest);
      assert i < |cs|;
      assert CaseAhead(cs[i], AfterCase(cs, i, rest), up1, err1);
      GoodNextCase(cs, sc, known, i);
      hide ProperCases, CaseAhead, AfterCase;
      MovedOver(rs, CaseOf(cs[i]), CasesOf(cs[i + 1..]));
    }
  }

  lemma GoodNextCase(cs: seq<CasePart>, sc: Scope, known: string -> bool, i: nat)
    requires i < |cs| && GoodCases(cs[..i], sc, known)
    ensures GoodCase(cs[i], sc, known) ==> GoodCases(cs[..i + 1], sc, known)
    ensures !GoodCase(cs[i], sc, known) ==> !GoodCases(cs, sc, known)
  {
    hide GoodCase;
    assert cs[..i + 1] == cs[..i] + [cs[i]];
  }

  lemma CasesEnd(cs: seq<CasePart>, rest: seq<Token>, sc: Scope, known: string -> bool, up0: seq<Token>, err0: bool, i: nat, up1: seq<Token>, err1: bool, rs: seq<SwitchCase>)
    requires CasesSoFar(cs, rest, sc, known, up0, err0, i, up1, err1, rs) && (err1 || up1 == [] || up1[0].kind == RBRACE)
    ensures CasesRead(cs, rest, sc, known, up0, err0, up1, err1, true, rs)
  {
    if CasesAhead(cs, rest, up0, err0) && !err1 {
      hide CaseTokens, CaseOf, GoodCase, ProperCase, CasesTokens, CasesOf, GoodCases, ProperCases;
      CasesTail(cs, i, rest);
      if i < |cs| { CaseHead(cs[i]); }
      assert i == |cs|;
      assert cs[..i] == cs && rs + [] == rs;
    }
  }

  function CasesIn(w: Statement): seq<CasePart> { if w.SwitchOn? then w.cases else [] }

  lemma SwitchAhead(w: Statement, rest: seq<Token>, up0: seq<Token>, err0: bool, kw: Token, up1: seq<Token>)
    requires StatementAhead(w, rest, up0, err0) && kw.kind == SWITCH && up0 == [kw] + up1
    ensures w.SwitchOn? && TestAhead(w.test, CaseBlockTokens(w.cases) + rest, up1, err0) && ProperCases(w.cases) && !err0
  {
    hide *;
    KeywordAhead(w, rest, up0, err0);
    StatementIs(w, rest, up0, err0);
    SwitchIs(w);
    ProperIf(w);
    Regrouped(Word(SWITCH), ExprTokens(w.test), CaseBlockTokens(w.cases), rest);
    SkipOne(Word(SWITCH), ExprTokens(w.test) + (CaseBlockTokens(w.cases) + rest), up0, kw, up1);
    SwitchTest(w.test, w.cases, rest, up1, err0);
  }

  lemma SwitchTest(w: Expr, cs: seq<CasePart>, rest: seq<Token>, up0: seq<Token>, err0: bool)
    requires Full(w) && up0 == ExprTokens(w) + (CaseBlockTokens(cs) + rest) && !err0
    ensures TestAhead(w, CaseBlockTokens(cs) + rest, up0, err0)
  {
    hide Full, ExprTokens, CasesTokens;
  }

  lemma SwitchIs(w: Statement)
    ensures KeywordOf(w) == SWITCH ==> w.SwitchOn?
    ensures w.SwitchOn? ==> StatementTokens(w) == [Word(SWITCH)] + (ExprTokens(w.test) + CaseBlockTokens(w.cases))
  {
    hide ExprTokens, CaseBlockTokens, Word;
  }

  /** Cases in braces. */
  predicate CaseBlockAhead(cs: seq<CasePart>, rest: seq<Token>, up0: seq<Token>, err0: bool) {
    ProperCases(cs) && up0 == CaseBlockTokens(cs) + rest && !err0
  }

  ghost predicate CaseBlockRead(cs: seq<CasePart>, rest: seq<Token>, sc: Scope, known: string -> bool, up0: seq<Token>, err0: bool, up1: seq<Token>, err1: bool, ok: bool, rs: seq<SwitchCase>) {
    CaseBlockAhead(cs, rest, up0, err0) ==> ok && (err1 <==> !GoodCases(cs, sc, known)) && (!err1 ==> up1 == rest && rs == CasesOf(cs))
  }

  lemma CaseBlockIsRead(cs: seq<CasePart>, rest: seq<Token>, sc: Scope, known: string -> bool, up0: seq<Token>, err0: bool, lb: Token, up1: seq<Token>, err1: bool,
                        up2: seq<Token>, err2: bool, ok: bool, rs: seq<SwitchCase>, rb: Token, up3: seq<Token>, err3: bool)
    requires TakesKind(LBRACE, up0, err0, lb, up1, err1) && CasesRead(cs, [Word(RBRACE)] + rest, sc, known, up1, err1, up2, err2, ok, rs)
    requires ok ==> TakesKind(RBRACE, up2, err2, rb, up3, err3) && (err2 ==> err3)
    ensures CaseBlockRead(cs, rest, sc, known, up0, err0, up3, err3, ok, rs)
  {
    hide TakesKind, ProperCases, GoodCases, CasesTokens, CasesOf;
    if CaseBlockAhead(cs, rest, up0, err0) {
      var more := CasesTokens(cs) + ([Word(RBRACE)] + rest);
      assert up0 == [Word(LBRACE)] + more;
      TakeOne(Word(LBRACE), more, up0, err0, lb, up1, err1);
      if !err2 { TakeOne(Word(RBRACE), rest, up2, err2, rb, up3, err3); }
    }
  }

  lemma SwitchRead(w: Statement, rest: seq<Token>, sc: Scope, known: string -> bool, up0: seq<Token>, err0: bool, kw: Token, up1: seq<Token>, up2: seq<Token>, err2: bool, compiled: bool, c: Condition,
                   up3: seq<Token>, err3: bool, ok: bool, cases: seq<SwitchCase>, a: Action)
    requires kw.kind == SWITCH && up0 == [kw] + up1 && TestRead(TestIn(w), CaseBlockTokens(CasesIn(w)) + rest, sc, up1, err0, up2, err2, compiled, c)
    requires compiled ==> CaseBlockRead(CasesIn(w), rest, sc, known, up2, err2, up3, err3, ok, cases) && (err2 ==> err3)
    requires compiled && ok ==> a == Switch(c, cases)
    ensures StatementRead(w, rest, sc, known, up0, err0, up3, err3, a)
  {
    hide StatementAhead, TestAhead, CaseBlockTokens, ProperCases, GoodCases, GoodTest, CasesOf, ConditionOf;
    if StatementAhead(w, rest, up0, err0) { SwitchAhead(w, rest, up0, err0, kw, up1); }
  }
}
