/** The expressions of right-hand sides: syntax trees, the tokens they are written with, and the text
    that is emitted for them. */
module RhsGrammar {
  import opened RhsLexer
  import opened RhsText
  import opened RhsPrint
  import opened RhsScope

  // ---- Expressions ----

  datatype Operand = Operand(op: Token, e: Expr)

  datatype Expr =
    | Name(t: Token, fields: seq<string>)
    | Number(t: Token)
    | Text(s: string)
    | Group(inner: Expr)
    | Call(name: string, args: seq<Expr>)
    | Chain(level: nat, first: Expr, rest: seq<Operand>)
    | Choice(test: Expr, yes: Expr, no: Expr)

  /** Operators from loosest to tightest: or, and, comparison, additive, multiplicative, power. */
  predicate OperatorAt(level: nat, kind: Type) {
    match level
    case 0 => kind == OR
    case 1 => kind == AND
    case 2 => kind in {GT, LT, GE, LE, EQ, NE}
    case 3 => kind in {PLUS, MINUS}
    case 4 => kind in {STAR, SLASH, MOD}
    case 5 => kind == CARET
    case _ => false
  }

  /** Every operator stands at one level. */
  lemma OperatorTable(level: nat, kind: Type)
    ensures OperatorAt(level, kind) <==>
      || (level == 0 && kind == OR) || (level == 1 && kind == AND)
      || (level == 2 && (kind == GT || kind == LT || kind == GE || kind == LE || kind == EQ || kind == NE))
      || (level == 3 && (kind == PLUS || kind == MINUS)) || (level == 4 && (kind == STAR || kind == SLASH || kind == MOD))
      || (level == 5 && kind == CARET)
  {
  }

  function Word(kind: Type): Token { Token(kind, Spelling(kind)) }

  function PathTokens(fs: seq<string>): seq<Token> { if fs == [] then [] else [Word(DOT)] + [Token(IDENTIFIER, fs[0])] + PathTokens(fs[1..]) }

  function ExprTokens(e: Expr): seq<Token>
    decreases e, 0
  {
    match e
    case Name(t, fs) => [t] + PathTokens(fs)
    case Number(t) => [t]
    case Text(s) => [Token(STRING, s)]
    case Group(x) => [Word(LPAREN)] + ExprTokens(x) + [Word(RPAREN)]
    case Call(name, args) => [Token(IDENTIFIER, name)] + ([Word(LPAREN)] + (ArgsTokens(args) + [Word(RPAREN)]))
    case Chain(_, first, ops) => ExprTokens(first) + OpsTokens(ops)
    case Choice(test, yes, no) => ExprTokens(test) + ([Word(QUESTION)] + (ExprTokens(yes) + ([Word(COLON)] + ExprTokens(no))))
  }

  function OpsTokens(ops: seq<Operand>): seq<Token>
    decreases ops, 0
  {
    if ops == [] then [] else OperandTokens(ops[0]) + OpsTokens(ops[1..])
  }

  function OperandTokens(x: Operand): seq<Token>
    decreases x, 0
  {
    [x.op] + ExprTokens(x.e)
  }

  function ArgsTokens(args: seq<Expr>): seq<Token>
    decreases args, 2
  {
    if args == [] then [] else ExprTokens(args[0]) + MoreArgs(args[1..])
  }

  /** Further arguments, each behind a comma. */
  function MoreArgs(args: seq<Expr>): seq<Token>
    decreases args, 1
  {
    if args == [] then [] else [Word(COMMA)] + (ExprTokens(args[0]) + MoreArgs(args[1..]))
  }

  // ---- The text that is emitted for an expression ----

  function JoinArgs(args: seq<string>): string {
    if args == [] then "" else if |args| == 1 then args[0] else JoinArgs(args[..|args| - 1]) + ", " + args[|args| - 1]
  }

  function JoinPlus(args: seq<string>): string
    requires args != []
  {
    if |args| == 1 then args[0] else JoinPlus(args[..|args| - 1]) + " + " + args[|args| - 1]
  }

  /** The sum that is emitted for `concat`, from the front. */
  lemma {:induction false} SumIs(args: seq<string>)
    requires args != []
    ensures JoinPlus(args) == if |args| == 1 then args[0] else args[0] + " + " + JoinPlus(args[1..])
    decreases |args|
  {
    if |args| > 2 {
      SumIs(args[..|args| - 1]);
      assert args[..|args| - 1][1..] == args[1..][..|args| - 2];
    } else if |args| == 2 {
      assert args[..1] == [args[0]] && args[1..] == [args[1]];
    }
  }

  function PathText(e: string, fs: seq<string>): string
    decreases |fs|
  {
    if fs == [] then e else PathText(e + "." + fs[0], fs[1..])
  }

  function CallText(name: string, args: seq<string>): string {
    if name == "concat" then (if args == [] then "" else "(" + JoinPlus(args) + ")") else name + "(" + JoinArgs(args) + ")"
  }

  function ExprText(e: Expr): string
    decreases e, 0
  {
    match e
    case Name(t, fs) => PathText(t.text, fs)
    case Number(t) => t.text
    case Text(s) => Quoted(s)
    case Group(x) => "(" + ExprText(x) + ")"
    case Call(name, args) => CallText(NewName(name), ArgTexts(args))
    case Chain(_, first, ops) => OpsText(ExprText(first), ops)
    case Choice(test, yes, no) => "(" + ExprText(test) + ") ? (" + ExprText(yes) + ") : (" + ExprText(no) + ")"
  }

  function OpsText(e: string, ops: seq<Operand>): string
    decreases ops, 1
  {
    if ops == [] then e else OpsText(e + OperandText(ops[0]), ops[1..])
  }

  function OperandText(x: Operand): string
    decreases x, 0
  {
    " " + x.op.text + " " + ExprText(x.e)
  }

  function ArgTexts(args: seq<Expr>): (r: seq<string>)
    ensures |r| == |args|
    decreases args, 1
  {
    seq(|args|, i requires 0 <= i < |args| => ExprText(args[i]))
  }

  // ---- Which trees are expressions ----

  /** An expression that may stand anywhere. */
  predicate Full(e: Expr)
    decreases e, 1
  {
    if e.Choice? then At(e.test, 0) && Full(e.yes) && Full(e.no) else At(e, 0)
  }

  /** An operand of level `k` or tighter. */
  predicate At(e: Expr, k: nat)
    decreases e, 0
  {
    match e
    case Choice(_, _, _) => false
    case Chain(level, first, ops) =>
      && k <= level < 6 && ops != [] && At(first, level + 1)
      && forall i :: 0 <= i < |ops| ==> OperatorAt(level, ops[i].op.kind) && At(ops[i].e, level + 1)
    case Group(x) => Full(x)
    case Call(name, args) => (NewName(name) == "concat" ==> args != []) && forall i :: 0 <= i < |args| ==> Full(args[i])
    case Name(t, _) => t.kind == IDENTIFIER || t.kind == VARIABLE
    case Number(t) => t.kind == INTEGER || t.kind == DOUBLE
    case Text(_) => true
  }

  /** `k` is a level, or -1 for a whole expression. */
  predicate Wanted(e: Expr, k: int)
    requires k >= -1
  {
    if k < 0 then Full(e) else At(e, k)
  }

  /** A token that would go on with an expression of level `k`. */
  predicate GoesOnWith(kind: Type, k: int)
    requires k >= -1
  {
    || kind == DOT || kind == LPAREN || (k < 0 && kind == QUESTION)
    || exists j: nat :: k <= j < 6 && OperatorAt(j, kind)
  }

  predicate Stops(rest: seq<Token>, k: int)
    requires k >= -1
  {
    rest == [] || !GoesOnWith(rest[0].kind, k)
  }

  lemma StopsTighter(rest: seq<Token>, k: int, l: int)
    requires -1 <= k <= l && Stops(rest, k)
    ensures Stops(rest, l)
  {
  }

  /** Kinds that end an expression. */
  lemma Enders(kind: Type, k: int)
    requires k >= -1 && kind in {LBRACE, RBRACE, RPAREN, COMMA, COLON}
    ensures !GoesOnWith(kind, k)
  {
  }

  lemma OperatorLevel(j: nat, l: nat, kind: Type)
    requires OperatorAt(j, kind) && OperatorAt(l, kind)
    ensures j == l < 6
  {
  }

  lemma WordIs(t: Token)
    requires TokenOk(t)
    ensures t.kind in {LPAREN, RPAREN, COMMA, DOT, QUESTION, COLON} ==> t == Word(t.kind)
  {
  }

  // ---- What an emitted text stands for ----

  /** The text lexes back to the tokens, up to the renaming, and mentions all their variables. */
  ghost predicate StandsFor(e: string, ts: seq<Token>) { Emits(e, ts) && Mentions(e, ts) }

  lemma OperatorsAtLevels(level: nat, t: Token)
    requires OperatorAt(level, t.kind)
    ensures IsOperator(t) && t.kind != END
  {
  }

  lemma JoinArgsAppend(args: seq<string>, e: string)
    requires args != []
    ensures JoinArgs(args + [e]) == JoinArgs(args) + ", " + e
  {
    assert (args + [e])[..|args|] == args;
  }

  lemma JoinPlusAppend(args: seq<string>, e: string)
    requires args != []
    ensures JoinPlus(args + [e]) == JoinPlus(args) + " + " + e
  {
    assert (args + [e])[..|args|] == args;
  }

  lemma StandsBinary(a: string, ts: seq<Token>, op: Token, b: string, us: seq<Token>)
    requires StandsFor(a, ts) && TokenOk(op) && IsOperator(op) && StandsFor(b, us)
    ensures StandsFor(a + (" " + op.text + " ") + b, ts + [op] + us)
  {
    hide Emits, Mentions, TokenOk;
    EmitsBinary(a, ts, op, b, us);
    MentionsJoined(a, ts, " " + op.text + " ", op, b, us);
  }

  lemma StandsParens(e: string, ts: seq<Token>)
    requires StandsFor(e, ts)
    ensures StandsFor("(" + e + ")", [LP] + ts + [RP])
  {
    hide Emits, Mentions;
    EmitsParens(e, ts);
    MentionsWrapped("(", e, ts, ")");
    MentionsNone("(" + e + ")", [LP]);
    MentionsNone("(" + e + ")", [RP]);
    MentionsBoth("(" + e + ")", [LP], ts);
    MentionsBoth("(" + e + ")", [LP] + ts, [RP]);
  }

  /** A name with its fields, while more fields may follow. */
  ghost predicate PathSoFar(e: string, ts: seq<Token>) {
    SpellsName(e, ts) && Mentions(e, ts) && forall i :: 0 <= i < |ts| ==> ts[i].kind != LPAREN
  }

  lemma PathStarts(name: Token)
    requires TokenOk(name) && name.kind in {IDENTIFIER, VARIABLE}
    ensures PathSoFar(name.text, [name])
  {
    hide SpellsName, Mentions, TokenOk;
    SpellsWord(name);
    MentionsWord(name);
  }

  lemma PathField(e: string, ts: seq<Token>, field: Token)
    requires PathSoFar(e, ts) && TokenOk(field) && field.kind == IDENTIFIER
    ensures PathSoFar(e + "." + field.text, ts + [DT] + [field])
  {
    hide SpellsName, Mentions, TokenOk;
    SpellsField(e, ts, field);
    MentionsAppend(e, ts, "." + field.text);
    var all := e + "." + field.text;
    assert e + ("." + field.text) == all;
    MentionsNone(all, [DT]);
    MentionsNone(all, [field]);
    MentionsBoth(all, ts, [DT]);
    MentionsBoth(all, ts + [DT], [field]);
  }

  lemma PathStands(e: string, ts: seq<Token>)
    requires PathSoFar(e, ts)
    ensures StandsFor(e, ts)
  {
    hide SpellsName, Mentions, Emits;
    EmitsPath(e, ts);
  }

  lemma NumberStands(t: Token)
    requires TokenOk(t) && t.kind in {INTEGER, DOUBLE}
    ensures StandsFor(t.text, [t])
  {
    hide Emits, TokenOk;
    EmitsNumber(t);
  }

  lemma StringStands(t: Token)
    requires t.kind == STRING
    ensures StandsFor(Quoted(t.text), [t])
  {
    hide Emits;
    EmitsString(t);
  }

  /** A ternary: outside the text round trip, but all variables are mentioned. */
  lemma TernaryStands(a: string, ts: seq<Token>, q: Token, yes: string, us: seq<Token>, cs: seq<Token>, no: string, vs: seq<Token>)
    requires StandsFor(a, ts) && q.kind == QUESTION && StandsFor(yes, us) && StandsFor(no, vs)
    requires forall k :: 0 <= k < |cs| ==> cs[k].kind == COLON
    ensures StandsFor("(" + a + ") ? (" + yes + ") : (" + no + ")", ts + ([q] + (us + cs + vs)))
  {
    hide Emits, Mentions;
    var e := "(" + a + ") ? (" + yes + ") : (" + no + ")";
    QuestionUnclean(ts, q, us + cs + vs);
    EmitsUnclean(e, ts + ([q] + (us + cs + vs)));
    MentionsWrapped("(", a, ts, ") ? (" + yes + ") : (" + no + ")");
    MentionsWrapped("(" + a + ") ? (", yes, us, ") : (" + no + ")");
    MentionsWrapped("(" + a + ") ? (" + yes + ") : (", no, vs, ")");
    assert "(" + a + (") ? (" + yes + ") : (" + no + ")") == e && "(" + a + ") ? (" + yes + (") : (" + no + ")") == e;
    MentionsNone(e, [q]);
    MentionsNone(e, cs);
    MentionsBoth(e, us, cs);
    MentionsBoth(e, us + cs, vs);
    MentionsBoth(e, [q], us + cs + vs);
    MentionsBoth(e, ts, [q] + (us + cs + vs));
  }

  /** The arguments so far, as a call and as a sum. */
  ghost predicate ArgumentsStand(name: Token, args: seq<string>, ts: seq<Token>) {
    && |ts| >= 2 && ts[0] == name && ts[1] == LP
    && if args == [] then ts == [name] + [LP]
       else Emits(NewName(name.text) + "(" + JoinArgs(args), ts) && Mentions(JoinArgs(args), ts) && Mentions(JoinPlus(args), ts)
  }

  lemma NoArguments(name: Token)
    ensures ArgumentsStand(name, [], [name] + [LP])
  {
  }

  lemma FirstArgument(name: Token, e: string, us: seq<Token>)
    requires TokenOk(name) && name.kind == IDENTIFIER && StandsFor(e, us)
    ensures ArgumentsStand(name, [e], [name] + [LP] + us)
  {
    hide Emits, Mentions, TokenOk, NewName;
    EmitsFirst(name, e, us);
    assert JoinArgs([e]) == e == JoinPlus([e]);
    MentionsNone(e, [name] + [LP]);
    MentionsBoth(e, [name] + [LP], us);
  }

  lemma NextArgument(name: Token, args: seq<string>, ts: seq<Token>, f: string, us: seq<Token>)
    requires args != [] && ArgumentsStand(name, args, ts) && StandsFor(f, us)
    ensures ArgumentsStand(name, args + [f], ts + [CM] + us)
  {
    hide Emits, Mentions, NewName;
    var text := NewName(name.text) + "(" + JoinArgs(args);
    EmitsNext(text, ts, f, us);
    JoinArgsAppend(args, f);
    JoinPlusAppend(args, f);
    assert text + ", " + f == NewName(name.text) + "(" + (JoinArgs(args) + ", " + f);
    MentionsJoined(JoinArgs(args), ts, ", ", CM, f, us);
    MentionsJoined(JoinPlus(args), ts, " + ", CM, f, us);
  }

  lemma CallStands(name: Token, args: seq<string>, ts: seq<Token>)
    requires TokenOk(name) && name.kind == IDENTIFIER && ArgumentsStand(name, args, ts)
    ensures StandsFor(NewName(name.text) + "(" + JoinArgs(args) + ")", ts + [RP])
  {
    hide Emits, Mentions, NewName, TokenOk;
    var open := NewName(name.text) + "(";
    if args == [] {
      EmitsEmptyCall(name);
      assert open + JoinArgs(args) == open;
      MentionsNone(open + ")", ts + [RP]);
    } else {
      EmitsClose(open + JoinArgs(args), ts);
      MentionsWrapped(open, JoinArgs(args), ts, ")");
      MentionsNone(open + JoinArgs(args) + ")", [RP]);
      MentionsBoth(open + JoinArgs(args) + ")", ts, [RP]);
    }
  }

  /** `concat` is emitted as a sum: outside the round trip, but all variables are mentioned. */
  lemma ConcatStands(name: Token, args: seq<string>, ts: seq<Token>)
    requires name.kind == IDENTIFIER && NewName(name.text) == "concat" && args != [] && ArgumentsStand(name, args, ts)
    ensures StandsFor("(" + JoinPlus(args) + ")", ts + [RP])
  {
    hide Emits, Mentions;
    var e := "(" + JoinPlus(args) + ")";
    ConcatUnclean(name, ts, [RP]);
    EmitsUnclean(e, ts + [RP]);
    MentionsWrapped("(", JoinPlus(args), ts, ")");
    MentionsNone(e, [RP]);
    MentionsBoth(e, ts, [RP]);
  }

  lemma QuestionUnclean(a: seq<Token>, q: Token, b: seq<Token>)
    requires q.kind == QUESTION
    ensures !Clean(a + ([q] + b))
  {
    assert (a + ([q] + b))[|a|] == q;
  }

  lemma ConcatUnclean(name: Token, ts: seq<Token>, us: seq<Token>)
    requires name.kind == IDENTIFIER && |ts| >= 2 && ts[0] == name && ts[1] == LP && NewName(name.text) == "concat"
    ensures !Clean(ts + us)
  {
    assert IsCall(ts + us, 0);
  }


  // ---- The emitted text of a tree stands for its tokens ----

  ghost predicate AllOk(ts: seq<Token>) { forall k :: 0 <= k < |ts| ==> TokenOk(ts[k]) }

  lemma OkParts(a: seq<Token>, b: seq<Token>)
    requires AllOk(a + b)
    ensures AllOk(a) && AllOk(b)
  {
    hide TokenOk;
    forall k | 0 <= k < |a| ensures TokenOk(a[k]) { assert (a + b)[k] == a[k]; }
    forall k | 0 <= k < |b| ensures TokenOk(b[k]) { assert (a + b)[|a| + k] == b[k]; }
  }

  /** What is emitted for an expression stands for the tokens it is written with. */
  lemma {:induction false} TreeStands(w: Expr, k: int)
    requires k >= -1 && Wanted(w, k) && AllOk(ExprTokens(w))
    ensures StandsFor(ExprText(w), ExprTokens(w))
    decreases w, 1
  {
    hide StandsFor, TokenOk, PathSoFar;
    assert !w.Choice? ==> At(w, if k < 0 then 0 else k);
    match w
    case Name(t, fs) =>
      OkParts([t], PathTokens(fs));
      assert TokenOk([t][0]);
      PathStarts(t);
      FieldsStand(t.text, [t], fs);
      PathStands(ExprText(w), ExprTokens(w));
    case Number(t) =>
      assert TokenOk([t][0]);
      NumberStands(t);
    case Text(s) => StringStands(Token(STRING, s));
    case Group(x) =>
      OkParts([LP] + ExprTokens(x), [RP]);
      OkParts([LP], ExprTokens(x));
      TreeStands(x, -1);
      StandsParens(ExprText(x), ExprTokens(x));
    case Call(name, args) =>
      CallTreeStands(name, args);
    case Chain(level, first, ops) =>
      OkParts(ExprTokens(first), OpsTokens(ops));
      TreeStands(first, level + 1);
      OpsStand(ExprText(first), ExprTokens(first), ops, level);
    case Choice(test, yes, no) =>
      ChoiceStands(test, yes, no);
  }

  lemma {:induction false} FieldsStand(e: string, ts: seq<Token>, fs: seq<string>)
    requires PathSoFar(e, ts) && AllOk(PathTokens(fs))
    ensures PathSoFar(PathText(e, fs), ts + PathTokens(fs))
    decreases |fs|
  {
    hide PathSoFar, TokenOk;
    if fs == [] {
      assert ts + PathTokens(fs) == ts;
    } else {
      var field := Token(IDENTIFIER, fs[0]);
      OkParts([DT] + [field], PathTokens(fs[1..]));
      assert TokenOk(([DT] + [field])[1]);
      PathField(e, ts, field);
      FieldsStand(e + "." + fs[0], ts + [DT] + [field], fs[1..]);
      assert ts + [DT] + [field] + PathTokens(fs[1..]) == ts + PathTokens(fs);
    }
  }

  lemma {:induction false} OpsStand(e: string, ts: seq<Token>, ops: seq<Operand>, level: nat)
    requires StandsFor(e, ts) && AllOk(OpsTokens(ops)) && level < 6
    requires forall i :: 0 <= i < |ops| ==> OperatorAt(level, ops[i].op.kind) && At(ops[i].e, level + 1)
    ensures StandsFor(OpsText(e, ops), ts + OpsTokens(ops))
    decreases ops, 0
  {
    hide StandsFor, TokenOk, OperatorAt, At, ExprTokens, ExprText;
    if ops == [] {
      assert ts + OpsTokens(ops) == ts;
    } else {
      var x := ops[0];
      OkParts(OperandTokens(x), OpsTokens(ops[1..]));
      OkParts([x.op], ExprTokens(x.e));
      assert TokenOk([x.op][0]);
      OperatorsAtLevels(level, x.op);
      OperandStands(x, level);
      StandsBinary(e, ts, x.op, ExprText(x.e), ExprTokens(x.e));
      assert e + OperandText(x) == e + (" " + x.op.text + " ") + ExprText(x.e);
      OpsStand(e + OperandText(x), ts + [x.op] + ExprTokens(x.e), ops[1..], level);
      assert ts + [x.op] + ExprTokens(x.e) + OpsTokens(ops[1..]) == ts + OpsTokens(ops);
    }
  }

  lemma {:induction false} OperandStands(x: Operand, level: nat)
    requires At(x.e, level + 1) && AllOk(ExprTokens(x.e))
    ensures StandsFor(ExprText(x.e), ExprTokens(x.e))
    decreases x, 0
  {
    TreeStands(x.e, level + 1);
  }

  lemma {:induction false} ChoiceStands(test: Expr, yes: Expr, no: Expr)
    requires Full(Choice(test, yes, no)) && AllOk(ExprTokens(Choice(test, yes, no)))
    ensures StandsFor(ExprText(Choice(test, yes, no)), ExprTokens(Choice(test, yes, no)))
    decreases Choice(test, yes, no), 0
  {
    hide StandsFor, TokenOk, At;
    var q, colon := Word(QUESTION), Word(COLON);
    OkParts(ExprTokens(test), [q] + (ExprTokens(yes) + ([colon] + ExprTokens(no))));
    OkParts([q], ExprTokens(yes) + ([colon] + ExprTokens(no)));
    OkParts(ExprTokens(yes), [colon] + ExprTokens(no));
    OkParts([colon], ExprTokens(no));
    TreeStands(test, 0);
    TreeStands(yes, -1);
    TreeStands(no, -1);
    TernaryStands(ExprText(test), ExprTokens(test), q, ExprText(yes), ExprTokens(yes), [colon], ExprText(no), ExprTokens(no));
    assert ExprTokens(yes) + [colon] + ExprTokens(no) == ExprTokens(yes) + ([colon] + ExprTokens(no));
  }

  lemma {:induction false} CallTreeStands(name: string, args: seq<Expr>)
    requires At(Call(name, args), 6) && AllOk(ExprTokens(Call(name, args)))
    ensures StandsFor(ExprText(Call(name, args)), ExprTokens(Call(name, args)))
    decreases args, 3
  {
    CallIs(name, args);
    CallShape(name, args);
    hide *;
    var t := Token(IDENTIFIER, name);
    CallOk(t, ArgsTokens(args));
    ArgsStand(t, args);
    CallTextStands(t, ArgTexts(args), [t] + [LP] + ArgsTokens(args));
  }

  lemma CallIs(name: string, args: seq<Expr>)
    requires At(Call(name, args), 6)
    ensures (forall i :: 0 <= i < |args| ==> Full(args[i])) && (NewName(name) == "concat" ==> args != [])
    ensures Word(LPAREN) == LP && Word(RPAREN) == RP
  {
  }

  lemma CallOk(t: Token, ts: seq<Token>)
    requires AllOk([t] + ([LP] + (ts + [RP])))
    ensures TokenOk(t) && AllOk(ts) && [t] + [LP] + ts + [RP] == [t] + ([LP] + (ts + [RP]))
  {
    OkParts([t], [LP] + (ts + [RP]));
    OkParts([LP], ts + [RP]);
    OkParts(ts, [RP]);
    hide TokenOk;
    assert TokenOk([t][0]);
  }

  lemma CallTextStands(name: Token, args: seq<string>, ts: seq<Token>)
    requires TokenOk(name) && name.kind == IDENTIFIER && ArgumentsStand(name, args, ts) && (NewName(name.text) == "concat" ==> args != [])
    ensures StandsFor(CallText(NewName(name.text), args), ts + [RP])
  {
    hide StandsFor, TokenOk, ArgumentsStand, NewName;
    if NewName(name.text) == "concat" {
      ConcatStands(name, args, ts);
    } else {
      CallStands(name, args, ts);
    }
  }

  lemma {:induction false} ArgsStand(name: Token, args: seq<Expr>)
    requires TokenOk(name) && name.kind == IDENTIFIER && AllOk(ArgsTokens(args)) && forall i :: 0 <= i < |args| ==> Full(args[i])
    ensures ArgumentsStand(name, ArgTexts(args), [name] + [LP] + ArgsTokens(args))
    decreases args, 2
  {
    hide StandsFor, TokenOk, ArgumentsStand, Full, ExprText, ExprTokens;
    var ts := [name] + [LP];
    if args == [] {
      NoArguments(name);
      assert ts + ArgsTokens(args) == ts && ArgTexts(args) == [];
    } else {
      OkParts(ExprTokens(args[0]), MoreArgs(args[1..]));
      TreeStands(args[0], -1);
      FirstArgument(name, ExprText(args[0]), ExprTokens(args[0]));
      MoreStand(name, [ExprText(args[0])], ts + ExprTokens(args[0]), args[1..]);
      assert ts + ExprTokens(args[0]) + MoreArgs(args[1..]) == ts + ArgsTokens(args);
      TextsFrom(args);
    }
  }

  lemma TextsFrom(args: seq<Expr>)
    requires args != []
    ensures ArgTexts(args) == [ExprText(args[0])] + ArgTexts(args[1..])
  {
    hide ExprText;
  }

  lemma TextsAppend(args: seq<Expr>, e: Expr)
    ensures ArgTexts(args + [e]) == ArgTexts(args) + [ExprText(e)]
  {
    hide ExprText;
  }

  lemma {:induction false} MoreStand(name: Token, done: seq<string>, ts: seq<Token>, args: seq<Expr>)
    requires done != [] && ArgumentsStand(name, done, ts) && AllOk(MoreArgs(args)) && forall i :: 0 <= i < |args| ==> Full(args[i])
    ensures ArgumentsStand(name, done + ArgTexts(args), ts + MoreArgs(args))
    decreases args, 1
  {
    hide StandsFor, TokenOk, ArgumentsStand, Full, ExprText, ExprTokens;
    if args == [] {
      assert ts + MoreArgs(args) == ts && done + ArgTexts(args) == done;
    } else {
      var us := ExprTokens(args[0]);
      OkParts([CM], us + MoreArgs(args[1..]));
      OkParts(us, MoreArgs(args[1..]));
      TreeStands(args[0], -1);
      NextArgument(name, done, ts, ExprText(args[0]), us);
      MoreStand(name, done + [ExprText(args[0])], ts + [CM] + us, args[1..]);
      assert ts + [CM] + us + MoreArgs(args[1..]) == ts + MoreArgs(args);
      TextsFrom(args);
      assert done + [ExprText(args[0])] + ArgTexts(args[1..]) == done + ArgTexts(args);
    }
  }

  // ---- Trees, piece by piece ----

  /** The tree is written with the tokens, and emitted as the text. */
  ghost predicate IsTree(w: Expr, k: int, e: string, ts: seq<Token>)
    requires k >= -1
  {
    Wanted(w, k) && ts == ExprTokens(w) && e == ExprText(w)
  }

  /** The text and the tokens belong to an expression. */
  ghost predicate Parsed(e: string, ts: seq<Token>) { StandsFor(e, ts) && exists w: Expr :: IsTree(w, -1, e, ts) }

  lemma IsParsed(w: Expr, e: string, ts: seq<Token>)
    requires IsTree(w, -1, e, ts) && AllOk(ts)
    ensures Parsed(e, ts)
  {
    hide StandsFor, TokenOk, ExprTokens, ExprText, Full;
    TreeStands(w, -1);
  }

  lemma TreeAnywhere(w: Expr, e: string, ts: seq<Token>)
    requires IsTree(w, 0, e, ts)
    ensures IsTree(w, -1, e, ts)
  {
    hide ExprTokens, ExprText;
  }

  lemma ChoiceTree(test: Expr, a: string, ts: seq<Token>, q: Token, yes: Expr, b: string, us: seq<Token>, colon: Token, no: Expr, c: string, vs: seq<Token>)
    requires IsTree(test, 0, a, ts) && q == Word(QUESTION) && IsTree(yes, -1, b, us) && colon == Word(COLON) && IsTree(no, -1, c, vs)
    ensures IsTree(Choice(test, yes, no), -1, "(" + a + ") ? (" + b + ") : (" + c + ")", ts + ([q] + (us + [colon] + vs)))
  {
    hide At;
    assert us + [colon] + vs == us + ([colon] + vs);
  }

  /** A chain of operators so far. */
  function ChainOf(level: nat, first: Expr, ops: seq<Operand>): Expr { if ops == [] then first else Chain(level, first, ops) }

  ghost predicate IsChain(level: nat, first: Expr, ops: seq<Operand>, e: string, ts: seq<Token>) {
    && At(first, level + 1) && (forall i :: 0 <= i < |ops| ==> OperatorAt(level, ops[i].op.kind) && At(ops[i].e, level + 1))
    && ts == ExprTokens(first) + OpsTokens(ops) && e == OpsText(ExprText(first), ops)
  }

  lemma ChainBegins(w: Expr, level: nat, e: string, ts: seq<Token>)
    requires IsTree(w, level + 1, e, ts)
    ensures IsChain(level, w, [], e, ts)
  {
    hide ExprTokens, ExprText, At;
    assert ts + [] == ts;
  }

  lemma ChainTree(level: nat, first: Expr, ops: seq<Operand>, e: string, ts: seq<Token>)
    requires level < 6 && IsChain(level, first, ops, e, ts)
    ensures IsTree(ChainOf(level, first, ops), level, e, ts)
  {
    if ops == [] { assert ts == ExprTokens(first); }
  }

  lemma ChainOperand(level: nat, first: Expr, ops: seq<Operand>, e: string, ts: seq<Token>, op: Token, w: Expr, f: string, us: seq<Token>)
    requires level < 6 && IsChain(level, first, ops, e, ts) && OperatorAt(level, op.kind) && IsTree(w, level + 1, f, us)
    ensures IsChain(level, first, ops + [Operand(op, w)], e + (" " + op.text + " ") + f, ts + [op] + us)
  {
    hide ExprTokens, ExprText, At, OperatorAt;
    var x := Operand(op, w);
    OpsAppend(ExprText(first), ops, x);
    assert ts + [op] + us == ExprTokens(first) + (OpsTokens(ops) + OperandTokens(x));
    assert e + (" " + op.text + " ") + f == e + OperandText(x);
  }

  lemma {:induction false} OpsAppend(e: string, ops: seq<Operand>, x: Operand)
    ensures OpsTokens(ops + [x]) == OpsTokens(ops) + OperandTokens(x)
    ensures OpsText(e, ops + [x]) == OpsText(e, ops) + OperandText(x)
    decreases |ops|
  {
    hide OperandTokens, OperandText;
    if ops == [] {
      assert [] + [x] == [x] && [x][1..] == [];
      assert OpsTokens([]) == [];
      assert OpsTokens([x]) == OperandTokens(x);
    } else {
      assert (ops + [x])[1..] == ops[1..] + [x] && (ops + [x])[0] == ops[0];
      OpsAppend(e + OperandText(ops[0]), ops[1..], x);
      assert OperandTokens(ops[0]) + (OpsTokens(ops[1..]) + OperandTokens(x)) == OpsTokens(ops) + OperandTokens(x);
    }
  }

  ghost predicate IsPath(t: Token, fs: seq<string>, e: string, ts: seq<Token>) {
    t.kind in {IDENTIFIER, VARIABLE} && ts == [t] + PathTokens(fs) && e == PathText(t.text, fs)
  }

  lemma PathBegins(t: Token)
    requires t.kind in {IDENTIFIER, VARIABLE}
    ensures IsPath(t, [], t.text, [t])
  {
  }

  lemma PathGoesOn(t: Token, fs: seq<string>, e: string, ts: seq<Token>, dot: Token, field: Token)
    requires IsPath(t, fs, e, ts) && dot == Word(DOT) && field.kind == IDENTIFIER
    ensures IsPath(t, fs + [field.text], e + "." + field.text, ts + [dot] + [field])
  {
    PathAppend(t.text, fs, field.text);
    assert Token(IDENTIFIER, field.text) == field;
    assert ts + [dot] + [field] == [t] + (PathTokens(fs) + [dot] + [field]);
  }

  lemma {:induction false} PathAppend(e: string, fs: seq<string>, f: string)
    ensures PathTokens(fs + [f]) == PathTokens(fs) + [Word(DOT)] + [Token(IDENTIFIER, f)]
    ensures PathText(e, fs + [f]) == PathText(e, fs) + "." + f
    decreases |fs|
  {
    if fs == [] {
      assert [] + [f] == [f] && [f][1..] == [];
      assert PathTokens([]) == [];
    } else {
      assert (fs + [f])[1..] == fs[1..] + [f] && (fs + [f])[0] == fs[0];
      PathAppend(e + "." + fs[0], fs[1..], f);
    }
  }

  lemma PathTree(t: Token, fs: seq<string>, e: string, ts: seq<Token>)
    requires IsPath(t, fs, e, ts)
    ensures IsTree(Name(t, fs), 6, e, ts)
  {
  }

  lemma LeafTrees(t: Token)
    ensures t.kind in {INTEGER, DOUBLE} ==> IsTree(Number(t), 6, t.text, [t])
    ensures t.kind == STRING ==> IsTree(Text(t.text), 6, Quoted(t.text), [t])
  {
    if t.kind == STRING { assert Token(STRING, t.text) == t; }
  }

  lemma GroupTree(lp: Token, w: Expr, e: string, ts: seq<Token>, rp: Token)
    requires lp == Word(LPAREN) && IsTree(w, -1, e, ts) && rp == Word(RPAREN)
    ensures IsTree(Group(w), 6, "(" + e + ")", [lp] + ts + [rp])
  {
  }

  /** The arguments of a call so far. */
  ghost predicate AreArgs(ws: seq<Expr>, args: seq<string>, ts: seq<Token>) {
    (forall i :: 0 <= i < |ws| ==> Full(ws[i])) && args == ArgTexts(ws) && ts == ArgsTokens(ws)
  }

  lemma NoArgs()
    ensures AreArgs([], [], [])
  {
  }

  lemma FirstArg(w: Expr, e: string, ts: seq<Token>)
    requires IsTree(w, -1, e, ts)
    ensures AreArgs([w], [e], ts)
  {
    hide ExprTokens, ExprText, Full;
    assert [w][1..] == [] && MoreArgs([]) == [];
  }

  lemma NextArg(ws: seq<Expr>, args: seq<string>, ts: seq<Token>, comma: Token, w: Expr, e: string, us: seq<Token>)
    requires ws != [] && AreArgs(ws, args, ts) && comma == Word(COMMA) && IsTree(w, -1, e, us)
    ensures AreArgs(ws + [w], args + [e], ts + [comma] + us)
  {
    hide ExprTokens, ExprText, Full;
    TextsAppend(ws, w);
    MoreAppend(ws[1..], w);
    assert (ws + [w])[1..] == ws[1..] + [w] && (ws + [w])[0] == ws[0];
  }

  lemma {:induction false} MoreAppend(ws: seq<Expr>, w: Expr)
    ensures MoreArgs(ws + [w]) == MoreArgs(ws) + ([Word(COMMA)] + ExprTokens(w))
    decreases |ws|
  {
    hide ExprTokens;
    if ws == [] {
      assert [] + [w] == [w] && [w][1..] == [];
      assert MoreArgs([]) == [];
    } else {
      assert (ws + [w])[1..] == ws[1..] + [w] && (ws + [w])[0] == ws[0];
      MoreAppend(ws[1..], w);
    }
  }

  lemma CallTree(name: Token, lp: Token, ws: seq<Expr>, args: seq<string>, ts: seq<Token>, rp: Token)
    requires name.kind == IDENTIFIER && lp == Word(LPAREN) && AreArgs(ws, args, ts) && rp == Word(RPAREN) && (NewName(name.text) == "concat" ==> args != [])
    ensures IsTree(Call(name.text, ws), 6, CallText(NewName(name.text), args), [name] + ([lp] + (ts + [rp])))
  {
    hide ExprTokens, ExprText, Full, NewName;
    CallShape(name.text, ws);
    assert Token(IDENTIFIER, name.text) == name;
  }

  lemma CallShape(name: string, ws: seq<Expr>)
    requires (forall i :: 0 <= i < |ws| ==> Full(ws[i])) && (NewName(name) == "concat" ==> ws != [])
    ensures At(Call(name, ws), 6)
    ensures ExprTokens(Call(name, ws)) == [Token(IDENTIFIER, name)] + ([Word(LPAREN)] + (ArgsTokens(ws) + [Word(RPAREN)]))
    ensures ExprText(Call(name, ws)) == CallText(NewName(name), ArgTexts(ws))
  {
  }
}
