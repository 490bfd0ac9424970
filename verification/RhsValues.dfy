/** Reading conditions, values and assignments that are ahead: they are taken whole, compiled, and
    accepted exactly if they are good. */
module RhsValues {
  import opened RhsLexer
  import opened RhsText
  import opened RhsGrammar
  import opened RhsReading
  import opened ExpressionRefs
  import opened RhsActions
  import opened RhsStatements

  /** What was ahead is accepted exactly if it is good, and is read then. */
  ghost predicate Answers(ahead: bool, good: bool, err1: bool, read: bool) {
    ahead ==> (err1 <==> !good) && (!err1 ==> read)
  }

  // ---- Conditions ----

  predicate TestAhead(w: Expr, rest: seq<Token>, up0: seq<Token>, err0: bool) {
    Full(w) && up0 == ExprTokens(w) + rest && rest != [] && rest[0].kind == LBRACE && !err0
  }

  ghost predicate TestRead(w: Expr, rest: seq<Token>, sc: Scope, up0: seq<Token>, err0: bool, up1: seq<Token>, err1: bool, compiled: bool, c: Condition) {
    TestAhead(w, rest, up0, err0) ==> compiled && (err1 <==> !GoodTest(w, sc)) && up1 == rest && c == ConditionOf(w)
  }

  /** What is emitted for an expression is not empty. */
  lemma {:induction false} TextNotEmpty(w: Expr, k: int)
    requires k >= -1 && Wanted(w, k) && ExprTokens(w) != [] && TokenOk(ExprTokens(w)[0])
    ensures ExprText(w) != ""
    decreases w
  {
    assert !w.Choice? ==> At(w, if k < 0 then 0 else k);
    match w
    case Chain(level, first, ops) =>
      ExpressionHead(first, level + 1);
      TextNotEmpty(first, level + 1);
      OpsLonger(ExprText(first), ops);
    case Name(t, fs) => PathLonger(t.text, fs);
    case _ =>
  }

  lemma {:induction false} OpsLonger(e: string, ops: seq<Operand>)
    ensures |OpsText(e, ops)| >= |e|
    decreases |ops|
  {
    hide OperandText;
    if ops != [] { OpsLonger(e + OperandText(ops[0]), ops[1..]); }
  }

  lemma {:induction false} PathLonger(e: string, fs: seq<string>)
    ensures |PathText(e, fs)| >= |e|
    decreases |fs|
  {
    if fs != [] { PathLonger(e + "." + fs[0], fs[1..]); }
  }

  lemma TestIsRead(w: Expr, rest: seq<Token>, sc: Scope, up0: seq<Token>, err0: bool, cur: Token, up1: seq<Token>, err1: bool, e: string, ts: seq<Token>, err2: bool, compiled: bool)
    requires Reads(w, rest, -1, up0, err0, up1, err1, e) && TokenOk(cur) && (up0 != [] ==> up0[0] == cur)
    requires up0 == ts + up1 && (compiled <==> e != "") && err2 == (err1 || e == "" || !RefsOk(e, Sources(sc)))
    ensures TestRead(w, rest, sc, up0, err0, up1, err2, compiled, Condition(e, ts))
  {
    hide TokenOk, RefsOk, ExprTokens, ExprText, Full, Stops, At;
    if TestAhead(w, rest, up0, err0) {
      BraceStops(rest, -1);
      assert Ahead(w, rest, -1, up0, err0);
      ExpressionHead(w, -1);
      assert up0[0] == ExprTokens(w)[0];
      TextNotEmpty(w, -1);
      assert |ts| == |ExprTokens(w)| && ts == up0[..|ts|] == ExprTokens(w);
    }
  }

  lemma BraceStops(rest: seq<Token>, k: int)
    requires k >= -1 && rest != [] && rest[0].kind in {LBRACE, RBRACE, RPAREN, COMMA, COLON}
    ensures Stops(rest, k)
  {
    Enders(rest[0].kind, k);
  }

  // ---- Values ----

  predicate ValueAhead(w: ValueForm, rest: seq<Token>, up0: seq<Token>, err0: bool) {
    ProperValue(w) && up0 == ValueTokens(w) + rest && rest != [] && rest[0].kind in {COMMA, RBRACE} && !err0
  }

  ghost predicate ValueRead(w: ValueForm, rest: seq<Token>, sc: Scope, known: string -> bool, up0: seq<Token>, err0: bool, up1: seq<Token>, err1: bool, v: Value) {
    Answers(ValueAhead(w, rest, up0, err0), GoodValue(w, sc, known), err1, up1 == rest && v == ValueOf(w))
  }

  /** The first two tokens of a value and what follows it. */
  lemma ValueHead(w: ValueForm, rest: seq<Token>, up0: seq<Token>, err0: bool)
    requires ValueAhead(w, rest, up0, err0)
    ensures |up0| >= 2 && rest[0].kind in {COMMA, RBRACE}
    ensures w.Plain? ==> up0[0] == w.t && up0[1] == rest[0]
    ensures w.Computed? ==> var ts := ExprTokens(w.e); ts != [] && up0[0] == ts[0] && up0[1] == if |ts| >= 2 then ts[1] else rest[0]
  {
    hide Full, ExprTokens;
  }

  /** A token that is a value by itself. */
  lemma LiteralRead(w: ValueForm, rest: seq<Token>, sc: Scope, known: string -> bool, up0: seq<Token>, err0: bool, t: Token, next: Type, up1: seq<Token>, v: Value)
    requires up0 == [t] + up1 && (t.kind == IDENTIFIER ==> next == if |up0| >= 2 then up0[1].kind else END)
    requires t.kind in {STRING, TRUE, FALSE, INTEGER, DOUBLE} || (t.kind == IDENTIFIER && next != DOT && UpperName(t.text))
    requires v == ValueOf(Plain(t))
    ensures ValueRead(w, rest, sc, known, up0, err0, up1, err0, v)
  {
    if ValueAhead(w, rest, up0, err0) {
      LiteralAhead(w, rest, up0, err0, t, next);
      hide UpperName, ValueOf;
      assert up1 == up0[1..] == rest;
    }
  }

  lemma LiteralAhead(w: ValueForm, rest: seq<Token>, up0: seq<Token>, err0: bool, t: Token, next: Type)
    requires ValueAhead(w, rest, up0, err0) && up0[0] == t && (t.kind == IDENTIFIER ==> next == if |up0| >= 2 then up0[1].kind else END)
    requires t.kind in {STRING, TRUE, FALSE, INTEGER, DOUBLE} || (t.kind == IDENTIFIER && next != DOT && UpperName(t.text))
    ensures w == Plain(t)
  {
    ValueHead(w, rest, up0, err0);
    hide UpperName, Full, ExprTokens;
  }

  /** A call of an unknown function. */
  lemma UnknownRead(w: ValueForm, rest: seq<Token>, sc: Scope, known: string -> bool, up0: seq<Token>, err0: bool, up1: seq<Token>, v: Value)
    requires |up0| >= 2 && up0[0].kind == IDENTIFIER && up0[1].kind == LPAREN && !known(up0[0].text)
    ensures ValueRead(w, rest, sc, known, up0, err0, up1, true, v)
  {
    if ValueAhead(w, rest, up0, err0) {
      ValueHead(w, rest, up0, err0);
      hide Full, ExprTokens, ExprText, IsLiteral, RefsOk;
    }
  }

  function ExprOf(w: ValueForm): Expr { if w.Computed? then w.e else Text("") }

  lemma ComputedRead(w: ValueForm, rest: seq<Token>, sc: Scope, known: string -> bool, up0: seq<Token>, err0: bool, cur: Token, next: Type, up1: seq<Token>, err1: bool, e: string, v: Value, err2: bool)
    requires Reads(ExprOf(w), rest, -1, up0, err0, up1, err1, e) && TokenOk(cur) && (up0 != [] ==> up0[0] == cur)
    requires cur.kind !in {STRING, TRUE, FALSE, INTEGER, DOUBLE}
    requires cur.kind == IDENTIFIER ==> next == (if |up0| >= 2 then up0[1].kind else END) && (next == LPAREN ==> known(cur.text)) && (UpperName(cur.text) ==> next == DOT)
    requires v == if IsReferenceText(e) then VarRef(e) else Expression(e)
    requires err2 == (err1 || if IsReferenceText(e) then Base(e) !in Sources(sc) else e == "" || !RefsOk(e, Sources(sc)))
    ensures ValueRead(w, rest, sc, known, up0, err0, up1, err2, v)
  {
    if ValueAhead(w, rest, up0, err0) {
      NotPlain(w, rest, up0, err0, cur, next);
      hide TokenOk, RefsOk, ExprTokens, ExprText, Full, Stops, At, UpperName, IsReferenceText, Base;
      BraceStops(rest, -1);
      assert Ahead(w.e, rest, -1, up0, err0);
      ExpressionHead(w.e, -1);
      var ts := ExprTokens(w.e);
      assert up0[0] == ts[0] && (|ts| >= 2 ==> up0[1] == ts[1]);
      TextNotEmpty(w.e, -1);
    }
  }

  lemma NotPlain(w: ValueForm, rest: seq<Token>, up0: seq<Token>, err0: bool, cur: Token, next: Type)
    requires ValueAhead(w, rest, up0, err0) && up0[0] == cur && cur.kind !in {STRING, TRUE, FALSE, INTEGER, DOUBLE}
    requires cur.kind == IDENTIFIER ==> next == (if |up0| >= 2 then up0[1].kind else END) && (UpperName(cur.text) ==> next == DOT)
    ensures w.Computed? && Full(w.e) && up0 == ExprTokens(w.e) + rest
  {
    hide UpperName, Full, ExprTokens;
    ValueHead(w, rest, up0, err0);
  }

  // ---- Assignments ----

  predicate Follows(rest: seq<Token>, kinds: set<Type>) { rest != [] && rest[0].kind in kinds }

  predicate AssignmentAhead(w: Assignment, rest: seq<Token>, up0: seq<Token>, err0: bool) {
    ProperValue(w.value) && up0 == AssignmentTokens(w) + rest && Follows(rest, {COMMA, RBRACE}) && !err0
  }

  function AssignmentOf(w: Assignment): FieldAssignment { FieldAssignment(w.field, ValueOf(w.value)) }

  ghost predicate AssignmentRead(w: Assignment, rest: seq<Token>, sc: Scope, known: string -> bool, up0: seq<Token>, err0: bool, up1: seq<Token>, err1: bool, f: FieldAssignment) {
    Answers(AssignmentAhead(w, rest, up0, err0), GoodValue(w.value, sc, known), err1, up1 == rest && f == AssignmentOf(w))
  }

  lemma AssignmentIsRead(w: Assignment, rest: seq<Token>, sc: Scope, known: string -> bool, up0: seq<Token>, err0: bool, field: Token, up1: seq<Token>, err1: bool,
                         eq: Token, up2: seq<Token>, err2: bool, up3: seq<Token>, err3: bool, v: Value)
    requires TakesKind(IDENTIFIER, up0, err0, field, up1, err1) && TakesKind(ASSIGN, up1, err1, eq, up2, err2)
    requires ValueRead(w.value, rest, sc, known, up2, err2, up3, err3, v)
    ensures AssignmentRead(w, rest, sc, known, up0, err0, up3, err3, FieldAssignment(field.text, v))
  {
    hide ProperValue, ValueOf, ValueTokens, GoodValue, TakesKind;
    if AssignmentAhead(w, rest, up0, err0) {
      var more := ValueTokens(w.value) + rest;
      assert up0 == [Token(IDENTIFIER, w.field)] + ([Word(ASSIGN)] + more);
      TakeOne(Token(IDENTIFIER, w.field), [Word(ASSIGN)] + more, up0, err0, field, up1, err1);
      TakeOne(Word(ASSIGN), more, up1, err1, eq, up2, err2);
    }
  }

  predicate AssignmentsAhead(ws: seq<Assignment>, trailing: bool, rest: seq<Token>, up0: seq<Token>, err0: bool) {
    ProperFields(ws) && up0 == AssignmentsTokens(ws) + (Trailing(ws, trailing) + rest) && Follows(rest, {RBRACE}) && !err0
  }

  ghost predicate AssignmentsRead(ws: seq<Assignment>, trailing: bool, rest: seq<Token>, sc: Scope, known: string -> bool, up0: seq<Token>, err0: bool, up1: seq<Token>, err1: bool, fs: seq<FieldAssignment>) {
    Answers(AssignmentsAhead(ws, trailing, rest, up0, err0), GoodFields(ws, sc, known), err1, up1 == rest && fs == AssignmentsOf(ws))
  }

  /** The first `i` assignments have been read. */
  ghost predicate AssignmentsSoFar(ws: seq<Assignment>, trailing: bool, rest: seq<Token>, sc: Scope, known: string -> bool, up0: seq<Token>, err0: bool, i: nat, up1: seq<Token>, err1: bool, fs: seq<FieldAssignment>) {
    AssignmentsAhead(ws, trailing, rest, up0, err0) ==>
      && (err1 ==> !GoodFields(ws, sc, known))
      && (!err1 ==> 1 <= i <= |ws| && GoodFields(ws[..i], sc, known) && up1 == MoreAssignments(ws[i..]) + (Trailing(ws, trailing) + rest)
                    && fs + AssignmentsOf(ws[i..]) == AssignmentsOf(ws))
  }

  function AssignmentAt(ws: seq<Assignment>, i: nat): Assignment { if i < |ws| then ws[i] else Assign("", Computed(Text(""))) }

  function AfterAssignment(ws: seq<Assignment>, trailing: bool, i: nat, rest: seq<Token>): seq<Token> {
    if i < |ws| then MoreAssignments(ws[i + 1..]) + (Trailing(ws, trailing) + rest) else rest
  }

  lemma AfterAssignmentFollows(ws: seq<Assignment>, trailing: bool, i: nat, rest: seq<Token>)
    requires Follows(rest, {RBRACE})
    ensures Follows(AfterAssignment(ws, trailing, i, rest), {COMMA, RBRACE})
  {
    hide AssignmentTokens;
  }

  /** What is left behind the first `i` assignments. */
  lemma AssignmentsTail(ws: seq<Assignment>, trailing: bool, i: nat, rest: seq<Token>)
    requires i <= |ws|
    ensures var more := MoreAssignments(ws[i..]) + (Trailing(ws, trailing) + rest);
      if i < |ws| then more == [Word(COMMA)] + (AssignmentTokens(ws[i]) + AfterAssignment(ws, trailing, i, rest))
      else if trailing && ws != [] then more == [Word(COMMA)] + rest else more == rest
    ensures i < |ws| ==> AssignmentsOf(ws[i..]) == [AssignmentOf(ws[i])] + AssignmentsOf(ws[i + 1..])
  {
    hide AssignmentTokens, ValueOf;
    if i < |ws| { assert ws[i..][0] == ws[i] && ws[i..][1..] == ws[i + 1..]; }
  }

  lemma AssignmentHead(w: Assignment)
    ensures AssignmentTokens(w) != [] && AssignmentTokens(w)[0].kind == IDENTIFIER
  {
  }

  lemma NoAssignmentsRead(ws: seq<Assignment>, trailing: bool, rest: seq<Token>, sc: Scope, known: string -> bool, up0: seq<Token>, err0: bool)
    requires up0 != [] && up0[0].kind == RBRACE
    ensures AssignmentsRead(ws, trailing, rest, sc, known, up0, err0, up0, err0, [])
  {
    hide AssignmentTokens, ProperValue, GoodValue, ValueOf;
    if ws != [] { AssignmentHead(ws[0]); }
    assert [] + rest == rest;
  }

  lemma FirstAssignmentRead(ws: seq<Assignment>, trailing: bool, rest: seq<Token>, sc: Scope, known: string -> bool, up0: seq<Token>, err0: bool, up1: seq<Token>, err1: bool, f: FieldAssignment)
    requires (up0 == [] || up0[0].kind != RBRACE) && AssignmentRead(AssignmentAt(ws, 0), AfterAssignment(ws, trailing, 0, rest), sc, known, up0, err0, up1, err1, f)
    ensures AssignmentsSoFar(ws, trailing, rest, sc, known, up0, err0, 1, up1, err1, [f])
  {
    hide AssignmentTokens, ProperValue, GoodValue, ValueOf, AssignmentsTokens, AssignmentsOf, MoreAssignments, Trailing;
    if AssignmentsAhead(ws, trailing, rest, up0, err0) {
      FirstTail(ws, trailing, rest);
      AfterAssignmentFollows(ws, trailing, 0, rest);
      assert ws != [];
      assert AssignmentAhead(ws[0], AfterAssignment(ws, trailing, 0, rest), up0, err0);
      assert ws[..0] == [];
      GoodNextField(ws, sc, known, 0);
      hide GoodFields, ProperFields, AssignmentAhead;
    }
  }

  lemma FirstTail(ws: seq<Assignment>, trailing: bool, rest: seq<Token>)
    ensures ws == [] ==> AssignmentsTokens(ws) + (Trailing(ws, trailing) + rest) == rest
    ensures ws != [] ==> AssignmentsTokens(ws) + (Trailing(ws, trailing) + rest) == AssignmentTokens(ws[0]) + AfterAssignment(ws, trailing, 0, rest)
    ensures ws != [] ==> AssignmentsOf(ws) == [AssignmentOf(ws[0])] + AssignmentsOf(ws[1..])
  {
    hide AssignmentTokens, ValueOf, MoreAssignments;
  }

  lemma AssignmentsGoOn(ws: seq<Assignment>, trailing: bool, rest: seq<Token>, sc: Scope, known: string -> bool, up0: seq<Token>, err0: bool, i: nat, up1: seq<Token>, err1: bool, fs: seq<FieldAssignment>,
                        comma: Token, up2: seq<Token>, up3: seq<Token>, err3: bool, f: FieldAssignment)
    requires AssignmentsSoFar(ws, trailing, rest, sc, known, up0, err0, i, up1, err1, fs) && comma.kind == COMMA && up1 == [comma] + up2
    requires (up2 == [] || up2[0].kind != RBRACE) && (err1 ==> err3)
    requires AssignmentRead(AssignmentAt(ws, i), AfterAssignment(ws, trailing, i, rest), sc, known, up2, err1, up3, err3, f)
    ensures AssignmentsSoFar(ws, trailing, rest, sc, known, up0, err0, i + 1, up3, err3, fs + [f])
  {
    if AssignmentsAhead(ws, trailing, rest, up0, err0) && !err1 {
      hide AssignmentTokens, ProperValue, GoodValue, ValueOf, AssignmentsTokens, MoreAssignments, Trailing, AssignmentsOf, GoodFields;
      AssignmentsTail(ws, trailing, i, rest);
      assert up2 == up1[1..];
      AfterAssignmentFollows(ws, trailing, i, rest);
      assert i < |ws|;
      assert AssignmentAhead(ws[i], AfterAssignment(ws, trailing, i, rest), up2, err1);
      GoodNextField(ws, sc, known, i);
      hide ProperFields, AssignmentAhead, Follows;
      MovedOver(fs, AssignmentOf(ws[i]), AssignmentsOf(ws[i + 1..]));
    }
  }

  lemma GoodNextField(ws: seq<Assignment>, sc: Scope, known: string -> bool, i: nat)
    requires i < |ws| && GoodFields(ws[..i], sc, known)
    ensures GoodValue(ws[i].value, sc, known) ==> GoodFields(ws[..i + 1], sc, known)
    ensures !GoodValue(ws[i].value, sc, known) ==> !GoodFields(ws, sc, known)
  {
    hide GoodValue;
    assert ws[..i + 1] == ws[..i] + [ws[i]];
  }

  lemma TrailingComma(ws: seq<Assignment>, trailing: bool, rest: seq<Token>, sc: Scope, known: string -> bool, up0: seq<Token>, err0: bool, i: nat, up1: seq<Token>, err1: bool, fs: seq<FieldAssignment>,
                      comma: Token, up2: seq<Token>)
    requires AssignmentsSoFar(ws, trailing, rest, sc, known, up0, err0, i, up1, err1, fs) && comma.kind == COMMA && up1 == [comma] + up2
    requires up2 != [] && up2[0].kind == RBRACE
    ensures AssignmentsRead(ws, trailing, rest, sc, known, up0, err0, up2, err1, fs)
  {
    if AssignmentsAhead(ws, trailing, rest, up0, err0) && !err1 {
      hide AssignmentTokens, ProperValue, GoodValue, ValueOf, AssignmentsTokens, MoreAssignments, Trailing, GoodFields, ProperFields;
      AssignmentsTail(ws, trailing, i, rest);
      assert up2 == up1[1..];
      if i < |ws| { AssignmentHead(ws[i]); }
      assert ws[..|ws|] == ws;
      assert i == |ws| ==> ws[i..] == [];
      assert fs + [] == fs;
    }
  }

  lemma AssignmentsEnd(ws: seq<Assignment>, trailing: bool, rest: seq<Token>, sc: Scope, known: string -> bool, up0: seq<Token>, err0: bool, i: nat, up1: seq<Token>, err1: bool, fs: seq<FieldAssignment>)
    requires AssignmentsSoFar(ws, trailing, rest, sc, known, up0, err0, i, up1, err1, fs) && (up1 == [] || up1[0].kind != COMMA)
    ensures AssignmentsRead(ws, trailing, rest, sc, known, up0, err0, up1, err1, fs)
  {
    if AssignmentsAhead(ws, trailing, rest, up0, err0) && !err1 {
      hide AssignmentTokens, ProperValue, GoodValue, ValueOf, AssignmentsTokens, MoreAssignments, Trailing, GoodFields, ProperFields;
      AssignmentsTail(ws, trailing, i, rest);
      assert ws[..|ws|] == ws;
      assert i == |ws| ==> ws[i..] == [];
      assert fs + [] == fs;
    }
  }

  predicate FieldBlockAhead(ws: seq<Assignment>, trailing: bool, rest: seq<Token>, up0: seq<Token>, err0: bool) {
    ProperFields(ws) && up0 == FieldBlock(ws, trailing) + rest && !err0
  }

  ghost predicate FieldBlockRead(ws: seq<Assignment>, trailing: bool, rest: seq<Token>, sc: Scope, known: string -> bool, up0: seq<Token>, err0: bool, up1: seq<Token>, err1: bool, fs: seq<FieldAssignment>) {
    Answers(FieldBlockAhead(ws, trailing, rest, up0, err0), GoodFields(ws, sc, known), err1, up1 == rest && fs == AssignmentsOf(ws))
  }

  lemma FieldBlockIsRead(ws: seq<Assignment>, trailing: bool, rest: seq<Token>, sc: Scope, known: string -> bool, up0: seq<Token>, err0: bool, lb: Token, up1: seq<Token>, err1: bool,
                         up2: seq<Token>, err2: bool, fs: seq<FieldAssignment>, rb: Token, up3: seq<Token>, err3: bool)
    requires TakesKind(LBRACE, up0, err0, lb, up1, err1) && AssignmentsRead(ws, trailing, [Word(RBRACE)] + rest, sc, known, up1, err1, up2, err2, fs)
    requires TakesKind(RBRACE, up2, err2, rb, up3, err3) && (err2 ==> err3)
    ensures FieldBlockRead(ws, trailing, rest, sc, known, up0, err0, up3, err3, fs)
  {
    hide ProperFields, GoodFields, AssignmentsTokens, AssignmentsOf, Trailing, TakesKind;
    if FieldBlockAhead(ws, trailing, rest, up0, err0) {
      var after := [Word(RBRACE)] + rest;
      var more := AssignmentsTokens(ws) + (Trailing(ws, trailing) + after);
      assert up0 == [Word(LBRACE)] + more;
      TakeOne(Word(LBRACE), more, up0, err0, lb, up1, err1);
      assert AssignmentsAhead(ws, trailing, after, up1, err1);
      if !err2 { TakeOne(Word(RBRACE), rest, up2, err2, rb, up3, err3); }
    }
  }
}
