/** Reading what is ahead: an expression that comes next is recognised, taken whole and emitted as its text. */
module RhsReading {
  import opened RhsLexer
  import opened RhsText
  import opened RhsGrammar

  // ---- What a parsing method does with a tree it is given ----

  /** From tokens `up0` and error flag `err0` to `up1` and `err1`: if the tree `want` comes next, and
      then something that does not go on with it, it is read and emitted as its text. */
  ghost predicate Reads(want: Expr, rest: seq<Token>, k: int, up0: seq<Token>, err0: bool, up1: seq<Token>, err1: bool, e: string)
    requires k >= -1
  {
    Ahead(want, rest, k, up0, err0) ==> !err1 && up1 == rest && e == ExprText(want)
  }

  ghost predicate Ahead(want: Expr, rest: seq<Token>, k: int, up0: seq<Token>, err0: bool)
    requires k >= -1
  {
    Wanted(want, k) && up0 == ExprTokens(want) + rest && Stops(rest, k) && !err0
  }

  /** The next token is taken if it is of that kind. */
  ghost predicate TakesKind(kind: Type, up0: seq<Token>, err0: bool, t: Token, up1: seq<Token>, err1: bool) {
    up0 != [] && up0[0].kind == kind ==> up0 == [t] + up1 && err1 == err0
  }

  lemma TakeOne(a: Token, more: seq<Token>, up0: seq<Token>, err0: bool, t: Token, up1: seq<Token>, err1: bool)
    requires up0 == [a] + more && TakesKind(a.kind, up0, err0, t, up1, err1)
    ensures t == a && up1 == more && err1 == err0
  {
    assert up0[0] == a && up0[1..] == more && up1 == up0[1..];
  }

  lemma SkipOne(a: Token, more: seq<Token>, up0: seq<Token>, t: Token, up1: seq<Token>)
    requires up0 == [a] + more && up0 == [t] + up1
    ensures t == a && up1 == more
  {
    assert up0[0] == a && up0[1..] == more && up1 == up0[1..];
  }

  lemma Regrouped(a: Token, xs: seq<Token>, ys: seq<Token>, rest: seq<Token>)
    ensures [a] + (xs + ys) + rest == [a] + (xs + (ys + rest))
  {
    assert xs + ys + rest == xs + (ys + rest);
    assert [a] + (xs + ys) + rest == [a] + (xs + ys + rest);
  }

  lemma Reassociated(xs: seq<Token>, ys: seq<Token>, rest: seq<Token>)
    ensures xs + ys + rest == xs + (ys + rest)
  {
  }

  lemma MovedOver<T>(done: seq<T>, x: T, more: seq<T>)
    ensures done + ([x] + more) == done + [x] + more
  {
  }

  lemma AheadIs(want: Expr, rest: seq<Token>, k: nat, up0: seq<Token>, err0: bool)
    requires Ahead(want, rest, k, up0, err0)
    ensures At(want, k) && up0 == ExprTokens(want) + rest && Stops(rest, k) && !err0
  {
  }

  lemma IsAhead(want: Expr, rest: seq<Token>, k: nat, up0: seq<Token>, err0: bool)
    requires At(want, k) && up0 == ExprTokens(want) + rest && Stops(rest, k) && !err0
    ensures Ahead(want, rest, k, up0, err0)
  {
  }

  lemma FullAhead(want: Expr, rest: seq<Token>, up0: seq<Token>, err0: bool)
    requires Full(want) && up0 == ExprTokens(want) + rest && Stops(rest, -1) && !err0
    ensures Ahead(want, rest, -1, up0, err0)
  {
  }

  // ---- The ternary ----

  function TestOf(want: Expr): Expr { if want.Choice? then want.test else want }
  function YesOf(want: Expr): Expr { if want.Choice? then want.yes else want }
  function NoOf(want: Expr): Expr { if want.Choice? then want.no else want }

  function ColonOn(want: Expr, rest: seq<Token>): seq<Token> { [Word(COLON)] + (ExprTokens(NoOf(want)) + rest) }

  function QuestionOn(want: Expr, rest: seq<Token>): seq<Token> { [Word(QUESTION)] + (ExprTokens(YesOf(want)) + ColonOn(want, rest)) }

  function AfterTest(want: Expr, rest: seq<Token>): seq<Token> { if want.Choice? then QuestionOn(want, rest) else rest }

  /** Behind the test of a ternary. */
  ghost predicate BranchesRead(want: Expr, rest: seq<Token>, up0: seq<Token>, err0: bool, e0: string, up1: seq<Token>, err1: bool, e: string) {
    (want.Choice? && Full(want) && up0 == QuestionOn(want, rest) && Stops(rest, -1) && !err0 && e0 == ExprText(want.test))
      ==> !err1 && up1 == rest && e == ExprText(want)
  }

  lemma TernaryTestAhead(want: Expr, rest: seq<Token>, up0: seq<Token>, err0: bool)
    requires Ahead(want, rest, -1, up0, err0)
    ensures Ahead(TestOf(want), AfterTest(want, rest), 0, up0, err0)
  {
    hide GoesOnWith;
    if want.Choice? {
      assert !GoesOnWith(QUESTION, 0) by { NoOperator(QUESTION); }
      assert up0 == ExprTokens(want.test) + QuestionOn(want, rest);
    } else {
      StopsTighter(rest, -1, 0);
    }
  }

  lemma NoOperator(kind: Type)
    requires kind in {QUESTION, COLON, LBRACE, RBRACE, RPAREN, COMMA}
    ensures !GoesOnWith(kind, 0)
  {
  }

  lemma TernaryReads(want: Expr, rest: seq<Token>, up0: seq<Token>, err0: bool, up1: seq<Token>, err1: bool, e1: string, up2: seq<Token>, err2: bool, e2: string)
    requires Reads(TestOf(want), AfterTest(want, rest), 0, up0, err0, up1, err1, e1)
    requires if up1 != [] && up1[0].kind == QUESTION then BranchesRead(want, rest, up1, err1, e1, up2, err2, e2) else up2 == up1 && err2 == err1 && e2 == e1
    ensures Reads(want, rest, -1, up0, err0, up2, err2, e2)
  {
    if Ahead(want, rest, -1, up0, err0) {
      TernaryTestAhead(want, rest, up0, err0);
      hide Ahead, ExprTokens, ExprText, At;
      assert Full(want) && Stops(rest, -1) by { AheadFull(want, rest, up0, err0); }
    }
  }

  lemma AheadFull(want: Expr, rest: seq<Token>, up0: seq<Token>, err0: bool)
    requires Ahead(want, rest, -1, up0, err0)
    ensures Full(want) && Stops(rest, -1)
  {
  }

  lemma BranchesAreRead(want: Expr, rest: seq<Token>, up0: seq<Token>, err0: bool, e0: string, up1: seq<Token>, up2: seq<Token>, err2: bool, yes: string,
                        colon: Token, up3: seq<Token>, err3: bool, up4: seq<Token>, err4: bool, no: string)
    requires up0 != [] && up0 == [up0[0]] + up1
    requires Reads(YesOf(want), ColonOn(want, rest), -1, up1, err0, up2, err2, yes)
    requires TakesKind(COLON, up2, err2, colon, up3, err3)
    requires Reads(NoOf(want), rest, -1, up3, err3, up4, err4, no)
    ensures BranchesRead(want, rest, up0, err0, e0, up4, err4, "(" + e0 + ") ? (" + yes + ") : (" + no + ")")
  {
    if want.Choice? && Full(want) && up0 == QuestionOn(want, rest) && Stops(rest, -1) && !err0 && e0 == ExprText(want.test) {
      hide GoesOnWith, ExprTokens;
      assert up1 == up0[1..] == ExprTokens(want.yes) + ColonOn(want, rest);
      assert Stops(ColonOn(want, rest), -1) by { Enders(COLON, -1); }
      assert Ahead(want.yes, ColonOn(want, rest), -1, up1, err0);
      assert up3 == up2[1..] == ExprTokens(want.no) + rest;
      assert Ahead(want.no, rest, -1, up3, err3);
    }
  }

  // ---- Binary operators ----

  function FirstOf(want: Expr, k: nat): Expr { if want.Chain? && want.level == k then want.first else want }

  function OpsOf(want: Expr, k: nat): seq<Operand> { if want.Chain? && want.level == k then want.rest else [] }

  /** What has been read of a chain: the text so far, and the operands from number `i` on to come. */
  ghost predicate ChainRead(want: Expr, rest: seq<Token>, k: nat, up0: seq<Token>, err0: bool, i: nat, up1: seq<Token>, err1: bool, e: string) {
    Ahead(want, rest, k, up0, err0) ==>
      i <= |OpsOf(want, k)| && !err1 && up1 == OpsTokens(OpsOf(want, k)[i..]) + rest && OpsText(e, OpsOf(want, k)[i..]) == ExprText(want)
  }

  function OperandOf(want: Expr, k: nat, i: nat): Operand {
    if i < |OpsOf(want, k)| then OpsOf(want, k)[i] else Operand(Word(ERROR), want)
  }

  function AfterOperand(want: Expr, k: nat, i: nat, rest: seq<Token>): seq<Token> {
    if i < |OpsOf(want, k)| then OpsTokens(OpsOf(want, k)[i + 1..]) + rest else rest
  }

  ghost predicate OperandRead(x: Operand, rest: seq<Token>, k: nat, up0: seq<Token>, err0: bool, e0: string, up1: seq<Token>, err1: bool, e: string) {
    (At(x.e, k + 1) && up0 == OperandTokens(x) + rest && Stops(rest, k + 1) && !err0)
      ==> !err1 && up1 == rest && e == e0 + OperandText(x)
  }

  lemma OperandIsRead(x: Operand, rest: seq<Token>, k: nat, up0: seq<Token>, err0: bool, e0: string, op: Token, up1: seq<Token>, up2: seq<Token>, err2: bool, f: string)
    requires up0 == [op] + up1 && Reads(x.e, rest, k + 1, up1, err0, up2, err2, f)
    ensures OperandRead(x, rest, k, up0, err0, e0, up2, err2, e0 + (" " + op.text + " ") + f)
  {
    hide Stops, ExprTokens, ExprText, At;
    if up0 == OperandTokens(x) + rest {
      assert up1 == up0[1..] == ExprTokens(x.e) + rest && op == up0[0] == x.op;
      assert " " + x.op.text + " " == " " + op.text + " ";
      assert e0 + (" " + op.text + " ") + f == e0 + ((" " + op.text + " ") + f);
    }
  }

  /** Behind an operand comes an operator of the level, or the rest. */
  lemma OpsStop(want: Expr, rest: seq<Token>, k: nat, i: nat)
    requires At(want, k) && k < 6 && Stops(rest, k) && i <= |OpsOf(want, k)|
    ensures Stops(OpsTokens(OpsOf(want, k)[i..]) + rest, k + 1)
    ensures i < |OpsOf(want, k)| ==> OperatorAt(k, OpsOf(want, k)[i].op.kind) && At(OpsOf(want, k)[i].e, k + 1)
  {
    var ops := OpsOf(want, k)[i..];
    if ops == [] {
      assert OpsTokens(ops) + rest == rest;
      StopsTighter(rest, k, k + 1);
    } else {
      var up := OpsTokens(ops) + rest;
      assert up[0] == ops[0].op == OpsOf(want, k)[i].op;
      OperatorStops(k, up[0].kind);
    }
  }

  lemma OperatorStops(k: nat, kind: Type)
    requires OperatorAt(k, kind)
    ensures !GoesOnWith(kind, k + 1)
  {
    forall j: nat | k + 1 <= j < 6 ensures !OperatorAt(j, kind) {
      if OperatorAt(j, kind) { OperatorLevel(j, k, kind); }
    }
  }

  lemma FirstTokens(want: Expr, k: nat)
    ensures ExprTokens(want) == ExprTokens(FirstOf(want, k)) + OpsTokens(OpsOf(want, k))
    ensures ExprText(want) == OpsText(ExprText(FirstOf(want, k)), OpsOf(want, k))
  {
  }

  lemma FirstLevel(want: Expr, k: nat)
    requires At(want, k) && k < 6
    ensures At(FirstOf(want, k), k + 1)
  {
  }

  lemma FirstAhead(want: Expr, rest: seq<Token>, k: nat, up0: seq<Token>, err0: bool)
    requires Ahead(want, rest, k, up0, err0) && k < 6
    ensures Ahead(FirstOf(want, k), OpsTokens(OpsOf(want, k)) + rest, k + 1, up0, err0)
    ensures ExprText(want) == OpsText(ExprText(FirstOf(want, k)), OpsOf(want, k))
  {
    hide *;
    AheadIs(want, rest, k, up0, err0);
    var ops := OpsOf(want, k);
    OpsStop(want, rest, k, 0);
    assert ops[0..] == ops;
    FirstTokens(want, k);
    FirstLevel(want, k);
    assert ExprTokens(FirstOf(want, k)) + OpsTokens(ops) + rest == ExprTokens(FirstOf(want, k)) + (OpsTokens(ops) + rest);
    IsAhead(FirstOf(want, k), OpsTokens(ops) + rest, k + 1, up0, err0);
  }

  lemma ChainStarts(want: Expr, rest: seq<Token>, k: nat, up0: seq<Token>, err0: bool, up1: seq<Token>, err1: bool, e: string)
    requires k < 6 && Reads(FirstOf(want, k), OpsTokens(OpsOf(want, k)) + rest, k + 1, up0, err0, up1, err1, e)
    ensures ChainRead(want, rest, k, up0, err0, 0, up1, err1, e)
  {
    if Ahead(want, rest, k, up0, err0) {
      FirstAhead(want, rest, k, up0, err0);
      hide Ahead, ExprTokens, ExprText, OpsTokens, OpsText;
      assert OpsOf(want, k)[0..] == OpsOf(want, k);
    }
  }

  lemma ChainGoesOn(want: Expr, rest: seq<Token>, k: nat, up0: seq<Token>, err0: bool, i: nat, up1: seq<Token>, err1: bool, e1: string, up2: seq<Token>, err2: bool, e2: string)
    requires k < 6 && ChainRead(want, rest, k, up0, err0, i, up1, err1, e1) && up1 != [] && OperatorAt(k, up1[0].kind)
    requires OperandRead(OperandOf(want, k, i), AfterOperand(want, k, i, rest), k, up1, err1, e1, up2, err2, e2)
    ensures ChainRead(want, rest, k, up0, err0, i + 1, up2, err2, e2)
  {
    if Ahead(want, rest, k, up0, err0) {
      var ops := OpsOf(want, k);
      if i == |ops| {
        NoneLeft(ops, i, rest, k, up1);
        assert false;
      }
      OpsStop(want, rest, k, i + 1);
      OpsStop(want, rest, k, i);
      OneOperand(ops, i, rest, e1);
      hide Ahead, ExprTokens, ExprText, OpsTokens, OpsText, At, Stops;
    }
  }

  lemma NoneLeft(ops: seq<Operand>, i: nat, rest: seq<Token>, k: nat, up1: seq<Token>)
    requires i == |ops| && up1 == OpsTokens(ops[i..]) + rest && Stops(rest, k)
    ensures up1 == [] || k >= 6 || !OperatorAt(k, up1[0].kind)
  {
    assert ops[i..] == [] && up1 == rest;
  }

  lemma OneOperand(ops: seq<Operand>, i: nat, rest: seq<Token>, e: string)
    requires i < |ops|
    ensures OpsTokens(ops[i..]) + rest == OperandTokens(ops[i]) + (OpsTokens(ops[i + 1..]) + rest)
    ensures OpsText(e, ops[i..]) == OpsText(e + OperandText(ops[i]), ops[i + 1..])
  {
    assert ops[i..][0] == ops[i] && ops[i..][1..] == ops[i + 1..];
    hide OperandTokens, OperandText;
  }

  lemma ChainEnds(want: Expr, rest: seq<Token>, k: nat, up0: seq<Token>, err0: bool, i: nat, up1: seq<Token>, err1: bool, e: string)
    requires k < 6 && ChainRead(want, rest, k, up0, err0, i, up1, err1, e) && (up1 == [] || !OperatorAt(k, up1[0].kind))
    ensures Reads(want, rest, k, up0, err0, up1, err1, e)
  {
    if Ahead(want, rest, k, up0, err0) {
      var ops := OpsOf(want, k);
      if i < |ops| {
        OpsStop(want, rest, k, i);
        OneOperand(ops, i, rest, e);
        assert false;
      }
      assert ops[i..] == [] && OpsTokens([]) + rest == rest;
      hide Ahead, ExprTokens, ExprText, At;
    }
  }

  // ---- Terms ----

  predicate StartsExpression(kind: Type) { kind in {LPAREN, INTEGER, DOUBLE, STRING, IDENTIFIER, VARIABLE} }

  /** How an expression starts. */
  lemma {:induction false} ExpressionHead(w: Expr, k: int)
    requires k >= -1 && Wanted(w, k)
    ensures ExprTokens(w) != [] && StartsExpression(ExprTokens(w)[0].kind)
    decreases w
  {
    assert !w.Choice? ==> At(w, if k < 0 then 0 else k);
    match w
    case Chain(level, first, _) => ExpressionHead(first, level + 1);
    case Choice(test, _, _) => ExpressionHead(test, 0);
    case _ =>
  }

  lemma TermAhead(want: Expr, rest: seq<Token>, up0: seq<Token>, err0: bool)
    requires Ahead(want, rest, 6, up0, err0)
    ensures !want.Chain? && !want.Choice? && up0 != [] && up0 == ExprTokens(want) + rest && StartsExpression(up0[0].kind)
    ensures want.Name? <==> up0[0].kind == VARIABLE || (up0[0].kind == IDENTIFIER && (|up0| < 2 || up0[1].kind != LPAREN))
    ensures want.Call? <==> up0[0].kind == IDENTIFIER && |up0| >= 2 && up0[1].kind == LPAREN
    ensures want.Number? <==> up0[0].kind in {INTEGER, DOUBLE}
    ensures want.Text? <==> up0[0].kind == STRING
    ensures want.Group? <==> up0[0].kind == LPAREN
    ensures rest == [] || (rest[0].kind != DOT && rest[0].kind != LPAREN)
    ensures want.Name? ==> want.t == up0[0]
  {
    ExpressionHead(want, 6);
    if want.Name? && want.fields != [] { assert up0[1] == Word(DOT); }
    if want.Name? && want.fields == [] { assert up0 == [want.t] + rest; }
  }

  lemma NothingRead(want: Expr, rest: seq<Token>, up0: seq<Token>, err0: bool, up1: seq<Token>, err1: bool, e: string)
    requires up0 == [] || up0[0].kind !in {LPAREN, INTEGER, DOUBLE, STRING, IDENTIFIER, VARIABLE}
    ensures Reads(want, rest, 6, up0, err0, up1, err1, e)
  {
    hide Ahead;
    if Ahead(want, rest, 6, up0, err0) {
      TermAhead(want, rest, up0, err0);
    }
  }

  lemma LeafRead(want: Expr, rest: seq<Token>, up0: seq<Token>, err0: bool, t: Token, up1: seq<Token>, e: string)
    requires t.kind in {INTEGER, DOUBLE, STRING} && up0 == [t] + up1 && e == if t.kind == STRING then Quoted(t.text) else t.text
    ensures Reads(want, rest, 6, up0, err0, up1, err0, e)
  {
    if Ahead(want, rest, 6, up0, err0) {
      TermAhead(want, rest, up0, err0);
      hide Ahead, Quoted;
      assert up1 == up0[1..] == rest && up0[0] == t;
    }
  }

  function InnerOf(want: Expr): Expr { if want.Group? then want.inner else want }

  lemma GroupRead(want: Expr, rest: seq<Token>, up0: seq<Token>, err0: bool, lp: Token, up1: seq<Token>, up2: seq<Token>, err2: bool, e: string, rp: Token, up3: seq<Token>, err3: bool)
    requires lp.kind == LPAREN && up0 == [lp] + up1 && Reads(InnerOf(want), [Word(RPAREN)] + rest, -1, up1, err0, up2, err2, e) && TakesKind(RPAREN, up2, err2, rp, up3, err3)
    ensures Reads(want, rest, 6, up0, err0, up3, err3, "(" + e + ")")
  {
    if Ahead(want, rest, 6, up0, err0) {
      var after := [Word(RPAREN)] + rest;
      GroupAhead(want, rest, up0, err0, lp, up1);
      hide Ahead, ExprTokens, ExprText, Full, At, Stops;
      assert up3 == up2[1..] == rest;
    }
  }

  lemma EnderStops(kind: Type, rest: seq<Token>, k: int)
    requires k >= -1 && kind in {LBRACE, RBRACE, RPAREN, COMMA, COLON}
    ensures Stops([Word(kind)] + rest, k)
  {
    hide GoesOnWith;
    Enders(kind, k);
  }

  lemma BehindFirst(a: Token, ts: seq<Token>, us: seq<Token>, rest: seq<Token>, up0: seq<Token>, t: Token, up1: seq<Token>)
    requires up0 == [a] + ts + us + rest && up0 == [t] + up1
    ensures a == t && up1 == ts + (us + rest)
  {
    assert up0 == [a] + (ts + (us + rest));
    assert up0[0] == a && up1 == up0[1..];
  }

  lemma GroupAhead(want: Expr, rest: seq<Token>, up0: seq<Token>, err0: bool, lp: Token, up1: seq<Token>)
    requires Ahead(want, rest, 6, up0, err0) && lp.kind == LPAREN && up0 == [lp] + up1
    ensures want.Group? && Ahead(want.inner, [Word(RPAREN)] + rest, -1, up1, err0) && ExprText(want) == "(" + ExprText(want.inner) + ")"
  {
    hide *;
    TermAhead(want, rest, up0, err0);
    AheadIs(want, rest, 6, up0, err0);
    GroupShape(want);
    EnderStops(RPAREN, rest, -1);
    BehindFirst(Word(LPAREN), ExprTokens(want.inner), [Word(RPAREN)], rest, up0, lp, up1);
    FullAhead(want.inner, [Word(RPAREN)] + rest, up1, err0);
  }

  lemma GroupShape(w: Expr)
    requires w.Group?
    ensures At(w, 6) ==> Full(w.inner)
    ensures ExprTokens(w) == [Word(LPAREN)] + ExprTokens(w.inner) + [Word(RPAREN)] && ExprText(w) == "(" + ExprText(w.inner) + ")"
  {
  }

  // ---- Names and their fields ----

  function PathOf(want: Expr): seq<string> { if want.Name? then want.fields else [] }

  predicate PathAhead(fs: seq<string>, rest: seq<Token>, up0: seq<Token>, err0: bool) {
    up0 == PathTokens(fs) + rest && (rest == [] || rest[0].kind != DOT) && !err0
  }

  /** What has been read of a path: the text so far, and the fields from number `i` on to come. */
  ghost predicate FieldsSoFar(fs: seq<string>, rest: seq<Token>, name: string, up0: seq<Token>, err0: bool, i: nat, up1: seq<Token>, err1: bool, e: string) {
    PathAhead(fs, rest, up0, err0) ==>
      i <= |fs| && !err1 && up1 == PathTokens(fs[i..]) + rest && PathText(e, fs[i..]) == PathText(name, fs)
  }

  ghost predicate FieldsRead(fs: seq<string>, rest: seq<Token>, name: string, up0: seq<Token>, err0: bool, up1: seq<Token>, err1: bool, e: string) {
    PathAhead(fs, rest, up0, err0) ==> !err1 && up1 == rest && e == PathText(name, fs)
  }

  lemma FieldsBegin(fs: seq<string>, rest: seq<Token>, name: string, up0: seq<Token>, err0: bool)
    ensures FieldsSoFar(fs, rest, name, up0, err0, 0, up0, err0, name)
  {
    assert fs[0..] == fs;
  }

  lemma PathTail(e: string, fs: seq<string>, i: nat, rest: seq<Token>)
    requires i <= |fs|
    ensures i == |fs| ==> PathTokens(fs[i..]) + rest == rest && PathText(e, fs[i..]) == e
    ensures i < |fs| ==> PathTokens(fs[i..]) + rest == [Word(DOT)] + ([Token(IDENTIFIER, fs[i])] + (PathTokens(fs[i + 1..]) + rest))
    ensures i < |fs| ==> PathText(e, fs[i..]) == PathText(e + "." + fs[i], fs[i + 1..])
  {
    if i < |fs| { assert fs[i..][0] == fs[i] && fs[i..][1..] == fs[i + 1..]; }
  }

  lemma FieldsGoOn(fs: seq<string>, rest: seq<Token>, name: string, up0: seq<Token>, err0: bool, i: nat, up1: seq<Token>, err1: bool, e: string,
                   up2: seq<Token>, field: Token, up3: seq<Token>, err3: bool)
    requires FieldsSoFar(fs, rest, name, up0, err0, i, up1, err1, e) && up1 != [] && up1[0].kind == DOT && up1 == [up1[0]] + up2
    requires TakesKind(IDENTIFIER, up2, err1, field, up3, err3)
    ensures FieldsSoFar(fs, rest, name, up0, err0, i + 1, up3, err3, e + "." + field.text)
  {
    if PathAhead(fs, rest, up0, err0) {
      PathTail(e, fs, i, rest);
      var more := PathTokens(fs[i + 1..]) + rest;
      assert up2 == up1[1..] == [Token(IDENTIFIER, fs[i])] + more;
      assert up3 == up2[1..] == more;
    }
  }

  lemma FieldsEnd(fs: seq<string>, rest: seq<Token>, name: string, up0: seq<Token>, err0: bool, i: nat, up1: seq<Token>, err1: bool, e: string)
    requires FieldsSoFar(fs, rest, name, up0, err0, i, up1, err1, e) && (up1 == [] || up1[0].kind != DOT)
    ensures FieldsRead(fs, rest, name, up0, err0, up1, err1, e)
  {
    if PathAhead(fs, rest, up0, err0) {
      PathTail(e, fs, i, rest);
    }
  }

  lemma NameShape(w: Expr)
    ensures w.Name? ==> ExprTokens(w) == [w.t] + PathTokens(w.fields) && ExprText(w) == PathText(w.t.text, w.fields)
  {
  }

  lemma NameAhead(want: Expr, rest: seq<Token>, up0: seq<Token>, err0: bool, t: Token, up1: seq<Token>)
    requires Ahead(want, rest, 6, up0, err0) && up0 == [t] + up1 && t.kind in {IDENTIFIER, VARIABLE} && (t.kind == IDENTIFIER ==> up1 == [] || up1[0].kind != LPAREN)
    ensures want.Name? && PathAhead(want.fields, rest, up1, err0) && ExprText(want) == PathText(t.text, want.fields)
  {
    hide *;
    TermAhead(want, rest, up0, err0);
    AheadIs(want, rest, 6, up0, err0);
    NameShape(want);
    assert up0[0] == t && (|up0| >= 2 ==> up0[1] == up1[0]);
    assert [t] + PathTokens(want.fields) + [] == ExprTokens(want);
    BehindFirst(want.t, PathTokens(want.fields), [], rest, up0, t, up1);
    assert [] + rest == rest;
    PathNow(want.fields, rest, up1, err0);
  }

  lemma PathNow(fs: seq<string>, rest: seq<Token>, up0: seq<Token>, err0: bool)
    requires up0 == PathTokens(fs) + rest && (rest == [] || rest[0].kind != DOT) && !err0
    ensures PathAhead(fs, rest, up0, err0)
  {
  }

  lemma NameRead(want: Expr, rest: seq<Token>, up0: seq<Token>, err0: bool, t: Token, up1: seq<Token>, up2: seq<Token>, err2: bool, e: string)
    requires t.kind in {IDENTIFIER, VARIABLE} && up0 == [t] + up1 && (t.kind == IDENTIFIER ==> up1 == [] || up1[0].kind != LPAREN)
    requires FieldsRead(PathOf(want), rest, t.text, up1, err0, up2, err2, e)
    ensures Reads(want, rest, 6, up0, err0, up2, err2, e)
  {
    if Ahead(want, rest, 6, up0, err0) {
      NameAhead(want, rest, up0, err0, t, up1);
      hide Ahead, PathTokens, PathText, ExprTokens, ExprText, At, Stops;
    }
  }

  // ---- Calls ----

  function ArgsOf(want: Expr): seq<Expr> { if want.Call? then want.args else [] }

  predicate ArgsAhead(ws: seq<Expr>, rest: seq<Token>, up0: seq<Token>, err0: bool) {
    (forall i :: 0 <= i < |ws| ==> Full(ws[i])) && up0 == ArgsTokens(ws) + rest && rest != [] && rest[0].kind == RPAREN && !err0
  }

  /** What has been read of the arguments: the first `i`, with the others to come. */
  ghost predicate ArgsSoFar(ws: seq<Expr>, rest: seq<Token>, up0: seq<Token>, err0: bool, i: nat, up1: seq<Token>, err1: bool, args: seq<string>) {
    ArgsAhead(ws, rest, up0, err0) ==> i <= |ws| && !err1 && up1 == MoreArgs(ws[i..]) + rest && args == ArgTexts(ws[..i])
  }

  ghost predicate ArgsRead(ws: seq<Expr>, rest: seq<Token>, up0: seq<Token>, err0: bool, up1: seq<Token>, err1: bool, args: seq<string>) {
    ArgsAhead(ws, rest, up0, err0) ==> !err1 && up1 == rest && args == ArgTexts(ws)
  }

  function ArgOf(ws: seq<Expr>, i: nat): Expr { if i < |ws| then ws[i] else Text("") }

  function AfterArg(ws: seq<Expr>, i: nat, rest: seq<Token>): seq<Token> { if i < |ws| then MoreArgs(ws[i + 1..]) + rest else rest }

  lemma NoArgsRead(ws: seq<Expr>, rest: seq<Token>, up0: seq<Token>, err0: bool)
    requires up0 != [] && up0[0].kind == RPAREN
    ensures ArgsRead(ws, rest, up0, err0, up0, err0, [])
  {
    if ArgsAhead(ws, rest, up0, err0) {
      hide ExprTokens, Full;
      if ws != [] { ExpressionHead(ws[0], -1); }
    }
  }

  lemma AfterArgStops(ws: seq<Expr>, i: nat, rest: seq<Token>)
    requires rest != [] && rest[0].kind == RPAREN
    ensures Stops(AfterArg(ws, i, rest), -1)
  {
    Enders(RPAREN, -1);
    Enders(COMMA, -1);
    hide GoesOnWith, ExprTokens;
    if i < |ws| {
      if ws[i + 1..] != [] {
        assert AfterArg(ws, i, rest)[0] == Word(COMMA);
      } else {
        assert AfterArg(ws, i, rest) == rest;
      }
    }
  }

  lemma FirstArgRead(ws: seq<Expr>, rest: seq<Token>, up0: seq<Token>, err0: bool, up1: seq<Token>, err1: bool, e: string)
    requires (up0 == [] || up0[0].kind != RPAREN) && Reads(ArgOf(ws, 0), AfterArg(ws, 0, rest), -1, up0, err0, up1, err1, e)
    ensures ArgsSoFar(ws, rest, up0, err0, 1, up1, err1, [e])
  {
    hide ExprTokens, Full, ExprText, Stops, MoreArgs;
    if ArgsAhead(ws, rest, up0, err0) {
      assert ws == [] ==> up0 == rest;
      AfterArgStops(ws, 0, rest);
      assert up0 == ExprTokens(ws[0]) + AfterArg(ws, 0, rest);
      assert Ahead(ws[0], AfterArg(ws, 0, rest), -1, up0, err0);
    }
  }

  lemma MoreTail(ws: seq<Expr>, i: nat, rest: seq<Token>)
    requires i <= |ws|
    ensures i == |ws| ==> MoreArgs(ws[i..]) + rest == rest
    ensures i < |ws| ==> MoreArgs(ws[i..]) + rest == [Word(COMMA)] + (ExprTokens(ws[i]) + AfterArg(ws, i, rest))
  {
    hide ExprTokens;
    if i < |ws| { assert ws[i..][0] == ws[i] && ws[i..][1..] == ws[i + 1..]; }
  }

  lemma NextArgRead(ws: seq<Expr>, rest: seq<Token>, up0: seq<Token>, err0: bool, i: nat, up1: seq<Token>, err1: bool, args: seq<string>,
                    up2: seq<Token>, up3: seq<Token>, err3: bool, e: string)
    requires ArgsSoFar(ws, rest, up0, err0, i, up1, err1, args) && up1 != [] && up1[0].kind == COMMA && up1 == [up1[0]] + up2
    requires Reads(ArgOf(ws, i), AfterArg(ws, i, rest), -1, up2, err1, up3, err3, e)
    ensures ArgsSoFar(ws, rest, up0, err0, i + 1, up3, err3, args + [e])
  {
    hide ExprTokens, Full, ExprText, Stops;
    if ArgsAhead(ws, rest, up0, err0) {
      MoreTail(ws, i, rest);
      AfterArgStops(ws, i, rest);
      assert up2 == up1[1..] == ExprTokens(ws[i]) + AfterArg(ws, i, rest);
      assert Ahead(ws[i], AfterArg(ws, i, rest), -1, up2, err1);
      TextsAppend(ws[..i], ws[i]);
      assert ws[..i] + [ws[i]] == ws[..i + 1];
    }
  }

  lemma ArgsEnd(ws: seq<Expr>, rest: seq<Token>, up0: seq<Token>, err0: bool, i: nat, up1: seq<Token>, err1: bool, args: seq<string>)
    requires ArgsSoFar(ws, rest, up0, err0, i, up1, err1, args) && (up1 == [] || up1[0].kind != COMMA)
    ensures ArgsRead(ws, rest, up0, err0, up1, err1, args)
  {
    hide ExprTokens, Full, ExprText;
    if ArgsAhead(ws, rest, up0, err0) {
      MoreTail(ws, i, rest);
      assert ws[..|ws|] == ws;
    }
  }

  lemma ArgsNow(ws: seq<Expr>, rest: seq<Token>, up0: seq<Token>, err0: bool)
    requires (forall i :: 0 <= i < |ws| ==> Full(ws[i])) && up0 == ArgsTokens(ws) + rest && rest != [] && rest[0] == Word(RPAREN) && !err0
    ensures ArgsAhead(ws, rest, up0, err0)
  {
  }

  lemma CallTokens(a: Token, b: Token, ts: seq<Token>, us: seq<Token>, rest: seq<Token>, up0: seq<Token>, name: Token, up1: seq<Token>, lp: Token, up2: seq<Token>)
    requires up0 == [a] + ([b] + (ts + us)) + rest && up0 == [name] + up1 && up1 == [lp] + up2
    ensures a == name && b == lp && up2 == ts + (us + rest)
  {
    assert up0 == [a] + ([b] + (ts + (us + rest)));
    assert up1 == up0[1..] == [b] + (ts + (us + rest));
    assert up2 == up1[1..];
    assert up0[0] == a && up1[0] == b;
  }

  lemma CallAhead(want: Expr, rest: seq<Token>, up0: seq<Token>, err0: bool, name: Token, up1: seq<Token>, lp: Token, up2: seq<Token>)
    requires Ahead(want, rest, 6, up0, err0) && name.kind == IDENTIFIER && up0 == [name] + up1 && lp.kind == LPAREN && up1 == [lp] + up2
    ensures want.Call? && want.name == name.text && At(want, 6) && ArgsAhead(want.args, [Word(RPAREN)] + rest, up2, err0)
  {
    TermAhead(want, rest, up0, err0);
    assert up0[0] == name && up0[1] == up1[0] == lp;
    AheadIs(want, rest, 6, up0, err0);
    CallParts(want);
    hide *;
    CallTokens(Token(IDENTIFIER, want.name), Word(LPAREN), ArgsTokens(want.args), [Word(RPAREN)], rest, up0, name, up1, lp, up2);
    ArgsNow(want.args, [Word(RPAREN)] + rest, up2, err0);
  }

  /** Behind the arguments, the call is emitted, unless it is an empty `concat`. */
  lemma CallRead(want: Expr, rest: seq<Token>, up0: seq<Token>, err0: bool, name: Token, up1: seq<Token>, lp: Token, up2: seq<Token>,
                 up3: seq<Token>, err3: bool, args: seq<string>, rp: Token, up4: seq<Token>, err4: bool, up5: seq<Token>, err5: bool, e: string)
    requires name.kind == IDENTIFIER && up0 == [name] + up1 && lp.kind == LPAREN && up1 == [lp] + up2
    requires ArgsRead(ArgsOf(want), [Word(RPAREN)] + rest, up2, err0, up3, err3, args) && TakesKind(RPAREN, up3, err3, rp, up4, err4)
    requires up5 == up4
    requires !(NewName(name.text) == "concat" && args == []) ==> err5 == err4 && e == CallText(NewName(name.text), args)
    ensures Reads(want, rest, 6, up0, err0, up5, err5, e)
  {
    if Ahead(want, rest, 6, up0, err0) {
      CallAhead(want, rest, up0, err0, name, up1, lp, up2);
      CallParts(want);
      hide Ahead, At, Full, ArgsAhead, ArgsTokens, NewName, ExprTokens, ExprText, ArgTexts, CallText;
      assert up3[1..] == rest;
    }
  }

  lemma CallParts(w: Expr)
    requires w.Call? && At(w, 6)
    ensures (forall i :: 0 <= i < |w.args| ==> Full(w.args[i])) && (NewName(w.name) == "concat" ==> w.args != [])
    ensures ExprTokens(w) == [Token(IDENTIFIER, w.name)] + ([Word(LPAREN)] + (ArgsTokens(w.args) + [Word(RPAREN)]))
    ensures ExprText(w) == CallText(NewName(w.name), ArgTexts(w.args))
  {
  }
}
