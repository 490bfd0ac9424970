/** The recursive-descent parser of native right-hand sides. */
module RhsParser {
  import opened Wrappers
  import opened RhsLexer
  import opened RhsText
  import opened RhsPrint
  import opened RhsGrammar
  import opened RhsReading
  import opened ExpressionRefs
  import opened RhsScope
  import opened RhsActions
  import opened RhsStatements
  import opened RhsOperators
  import opened RhsValues
  import opened RhsAccepting
  import opened RhsTrees

  // ---- Tokens to come ----

  /** The tokens not yet consumed. */
  function Pending(current: Token, rest: string): seq<Token> {
    if current.kind == END then [] else [current] + Lex(rest)
  }

  /** Advancing moves the current token from the pending to the consumed ones. */
  lemma PendingNext(current: Token, rest: string)
    ensures current.kind != END ==> Pending(current, rest) == [current] + Pending(Next(rest).token, Next(rest).rest)
  {
  }

  lemma NextShrinks(rest: string)
    ensures Next(rest).token.kind == END || |Next(rest).rest| < |rest|
    ensures Next(rest).token.kind == END ==> Next(rest).rest == ""
    ensures rest == "" ==> Next(rest).token.kind == END
  {
  }

  lemma SecondToken(current: Token, rest: string)
    requires current.kind != END
    ensures var up := Pending(current, rest); |up| >= 1 && Next(rest).token.kind == if |up| >= 2 then up[1].kind else END
  {
  }

  lemma PendingFirst(input: string)
    ensures Pending(Next(input).token, Next(input).rest) == Lex(input)
  {
  }

  class Parser {
    const lexer: Lexer
    const bindings: set<string>
    const globals: set<string>
    const isBuiltin: string -> bool
    var current: Token
    var hadError: bool
    var locals: set<string>
    ghost var taken: seq<Token>        // the tokens consumed so far

    constructor (input: string, bindings: set<string>, globals: set<string>, isBuiltin: string -> bool)
      ensures Valid() && fresh(lexer) && !hadError && locals == {} && taken == [] && lexer.input == input
      ensures this.bindings == bindings && this.globals == globals && this.isBuiltin == isBuiltin
    {
      hide Lex, TokenOk, Next, Pending, Lexer.Valid, Lexer.Rest;
      var lx := new Lexer(input);
      NextOk(input);
      PendingFirst(input);
      NextShrinks(input);
      var first := lx.NextToken();
      lexer, current, hadError, locals, taken := lx, first, false, {}, [];
      this.bindings, this.globals, this.isBuiltin := bindings, globals, isBuiltin;
    }

    /** Every token of the input is either consumed or still to come. */
    ghost predicate Valid()
      reads this`current, this`taken, lexer
    {
      && lexer.Valid() && TokenOk(current) && (current.kind == END ==> lexer.Rest() == "")
      && taken + Pending(current, lexer.Rest()) == Lex(lexer.input)
    }

    /** How much is left to parse. */
    ghost function Left(): nat
      requires Valid()
      reads this`current, this`taken, lexer
    {
      if current.kind == END then 0 else 1 + |lexer.Rest()|
    }

    /** The tokens still to come. */
    ghost function Upcoming(): seq<Token>
      requires Valid()
      reads this`current, this`taken, lexer
    {
      Pending(current, lexer.Rest())
    }

    lemma UpcomingHead()
      requires Valid()
      ensures current.kind == END <==> Upcoming() == []
      ensures current.kind != END ==> Upcoming()[0] == current
      ensures TokenOk(current)
    {
    }

    lemma TakenOk()
      requires Valid()
      ensures forall k :: 0 <= k < |taken| ==> TokenOk(taken[k])
    {
      LexOk(lexer.input);
      hide Lex, TokenOk, Lexer.Valid, Lexer.Rest, Pending;
      forall k | 0 <= k < |taken| ensures TokenOk(taken[k]) { assert taken[k] == Lex(lexer.input)[k]; }
    }

    function CurrentScope(): Scope
      reads this`locals
    {
      Scope(bindings + locals, globals)
    }

    method Advance() returns (t: Token)
      requires Valid()
      modifies this`current, this`taken, lexer
      ensures Valid() && t == old(current) && TokenOk(t)
      ensures t.kind == END ==> taken == old(taken) && Left() == old(Left())
      ensures t.kind != END ==> Took(old(taken), taken, [t]) && Left() < old(Left()) && old(Upcoming()) == [t] + Upcoming()
    {
      hide Lex, TokenOk, Next, Lexer.Valid, Lexer.Rest;
      t := current;
      ghost var rest := lexer.Rest();
      NextOk(rest);
      PendingNext(t, rest);
      NextShrinks(rest);
      var next := lexer.NextToken();
      current := next;
      taken := taken + (if t.kind == END then [] else [t]);
    }

    /** The token if it is of the expected kind, else an error. */
    method Consume(kind: Type) returns (t: Token)
      requires Valid() && kind != END && kind != ERROR
      modifies this`current, this`taken, this`hadError, lexer
      ensures Valid() && Left() <= old(Left()) && (old(hadError) ==> hadError)
      ensures old(current).kind == kind ==> t == old(current) && TokenOk(t) && Took(old(taken), taken, [t]) && hadError == old(hadError) && Left() < old(Left())
      ensures old(current).kind != kind ==> hadError && t == Token(ERROR, "") && taken == old(taken) && current == old(current)
      ensures TakesKind(kind, old(Upcoming()), old(hadError), t, Upcoming(), hadError) && (t.kind == VARIABLE ==> t.text != "")
    {
      hide *;
      UpcomingHead();
      if current.kind == kind {
        t := Advance();
        VariableNamed(t);
        Takes(kind, old(Upcoming()), hadError, t, Upcoming());
      } else {
        hadError := true;
        t := Token(ERROR, "");
        TakesNot(kind, old(Upcoming()), old(hadError), t, Upcoming());
      }
    }

    // ---- Expressions ----

    /** `parse_expression`: the emitted text and the consumed tokens are those of an expression, and
        if `want` is ahead, it is the one that is read. */
    method ParseExpression(ghost want: Expr, ghost rest: seq<Token>) returns (e: string, ts: seq<Token>, ghost w: Expr)
      requires Valid()
      modifies this`current, this`taken, this`hadError, lexer
      ensures Valid() && Left() <= old(Left()) && (old(hadError) ==> hadError) && Took(old(taken), taken, ts)
      ensures !hadError ==> IsTree(w, -1, e, ts) && Left() < old(Left())
      ensures Reads(want, rest, -1, old(Upcoming()), old(hadError), Upcoming(), hadError, e)
      decreases Left(), 11
    {
      hide *;
      e, ts, w := ParseTernary(want, rest);
    }

    method ParseTernary(ghost want: Expr, ghost rest: seq<Token>) returns (e: string, ts: seq<Token>, ghost w: Expr)
      requires Valid()
      modifies this`current, this`taken, this`hadError, lexer
      ensures Valid() && Left() <= old(Left()) && (old(hadError) ==> hadError) && Took(old(taken), taken, ts)
      ensures !hadError ==> IsTree(w, -1, e, ts) && Left() < old(Left())
      ensures Reads(want, rest, -1, old(Upcoming()), old(hadError), Upcoming(), hadError, e)
      decreases Left(), 10
    {
      hide *;
      e, ts, w := ParseBinary(0, TestOf(want), AfterTest(want, rest));
      UpcomingHead();
      ghost var up1, err1, e1 := Upcoming(), hadError, e;
      if current.kind == QUESTION {
        e, ts, w := ParseBranches(old(taken), e, ts, w, want, rest);
      } else if !hadError {
        TreeAnywhere(w, e, ts);
      }
      TernaryReads(want, rest, old(Upcoming()), old(hadError), up1, err1, e1, Upcoming(), hadError, e);
    }

    /** `? yes : no` behind the condition `e0`. */
    method ParseBranches(ghost t0: seq<Token>, e0: string, ts0: seq<Token>, ghost w0: Expr, ghost want: Expr, ghost rest: seq<Token>) returns (e: string, ts: seq<Token>, ghost w: Expr)
      requires Valid() && current.kind == QUESTION && Took(t0, taken, ts0) && (!hadError ==> IsTree(w0, 0, e0, ts0))
      modifies this`current, this`taken, this`hadError, lexer
      ensures Valid() && Left() < old(Left()) && (old(hadError) ==> hadError) && Took(t0, taken, ts)
      ensures !hadError ==> IsTree(w, -1, e, ts)
      ensures BranchesRead(want, rest, old(Upcoming()), old(hadError), e0, Upcoming(), hadError, e)
      decreases Left(), 0
    {
      hide *;
      UpcomingHead();
      ghost var t1, y, n := taken, w0, w0;
      var yes, us, no, vs;
      var q := Advance();
      ghost var t2, up1 := taken, Upcoming();
      yes, us, y := ParseTernary(YesOf(want), ColonOn(want, rest));
      ghost var t3, up2, err2 := taken, Upcoming(), hadError;
      var colon := Consume(COLON);
      ghost var t4, up3, err3 := taken, Upcoming(), hadError;
      TookNone(t3);
      var cs := if colon.kind == COLON then [colon] else [];
      no, vs, n := ParseTernary(NoOf(want), rest);
      e := "(" + e0 + ") ? (" + yes + ") : (" + no + ")";
      ts := ts0 + ([q] + (us + cs + vs));
      w := Choice(w0, y, n);
      if !hadError {
        WordIs(q);
        WordIs(colon);
        ChoiceTree(w0, e0, ts0, q, y, yes, us, colon, n, no, vs);
      }
      TookThen3(t2, t3, t4, taken, us, cs, vs);
      TookThen(t1, t2, taken, [q], us + cs + vs);
      TookThen(t0, t1, taken, ts0, [q] + (us + cs + vs));
      BranchesAreRead(want, rest, old(Upcoming()), old(hadError), e0, up1, up2, err2, yes, colon, up3, err3, Upcoming(), hadError, no);
    }

    /** The six levels of left-associated operators, from `parse_or` down to `parse_power`. */
    method ParseBinary(level: nat, ghost want: Expr, ghost rest: seq<Token>) returns (e: string, ts: seq<Token>, ghost w: Expr)
      requires Valid() && level <= 6
      modifies this`current, this`taken, this`hadError, lexer
      ensures Valid() && Left() <= old(Left()) && (old(hadError) ==> hadError) && Took(old(taken), taken, ts)
      ensures !hadError ==> IsTree(w, level, e, ts) && Left() < old(Left())
      ensures Reads(want, rest, level, old(Upcoming()), old(hadError), Upcoming(), hadError, e)
      decreases Left(), 9 - level
    {
      hide *;
      if level == 6 {
        e, ts, w := ParseTerm(want, rest);
        return;
      }
      ghost var ops, i, x := [], 0, OperandOf(want, level, 0);
      e, ts, w := ParseBinary(level + 1, FirstOf(want, level), OpsTokens(OpsOf(want, level)) + rest);
      if !hadError { ChainBegins(w, level, e, ts); }
      ChainStarts(want, rest, level, old(Upcoming()), old(hadError), Upcoming(), hadError, e);
      while OperatorAt(level, current.kind)
        invariant Valid() && Left() <= old(Left()) && (old(hadError) ==> hadError) && Took(old(taken), taken, ts)
        invariant !hadError ==> IsChain(level, w, ops, e, ts) && Left() < old(Left())
        invariant ChainRead(want, rest, level, old(Upcoming()), old(hadError), i, Upcoming(), hadError, e)
        decreases Left()
      {
        OperatorsAtLevels(level, current);
        UpcomingHead();
        ghost var up1, err1, e1 := Upcoming(), hadError, e;
        e, ts, x := ParseOperand(level, old(taken), e, ts, w, ops, OperandOf(want, level, i), AfterOperand(want, level, i, rest));
        ops := ops + [x];
        ChainGoesOn(want, rest, level, old(Upcoming()), old(hadError), i, up1, err1, e1, Upcoming(), hadError, e);
        i := i + 1;
      }
      UpcomingHead();
      if !hadError { ChainTree(level, w, ops, e, ts); }
      ChainEnds(want, rest, level, old(Upcoming()), old(hadError), i, Upcoming(), hadError, e);
      w := ChainOf(level, w, ops);
    }

    /** An operator of the level and its right operand. */
    method ParseOperand(level: nat, ghost t0: seq<Token>, e0: string, ts0: seq<Token>, ghost first: Expr, ghost ops: seq<Operand>, ghost want: Operand, ghost rest: seq<Token>)
      returns (e: string, ts: seq<Token>, ghost x: Operand)
      requires Valid() && level < 6 && OperatorAt(level, current.kind) && current.kind != END
      requires Took(t0, taken, ts0) && (!hadError ==> IsChain(level, first, ops, e0, ts0))
      modifies this`current, this`taken, this`hadError, lexer
      ensures Valid() && Left() < old(Left()) && (old(hadError) ==> hadError) && Took(t0, taken, ts)
      ensures !hadError ==> IsChain(level, first, ops + [x], e, ts)
      ensures OperandRead(want, rest, level, old(Upcoming()), old(hadError), e0, Upcoming(), hadError, e)
      decreases Left(), 0
    {
      hide *;
      ghost var t1, w := taken, first;
      var f, us;
      var op := Advance();
      ghost var t2, up1 := taken, Upcoming();
      f, us, w := ParseBinary(level + 1, want.e, rest);
      if !hadError { ChainOperand(level, first, ops, e0, ts0, op, w, f, us); }
      TookThen3(t0, t1, t2, taken, ts0, [op], us);
      OperandIsRead(want, rest, level, old(Upcoming()), old(hadError), e0, op, up1, Upcoming(), hadError, f);
      e := e0 + (" " + op.text + " ") + f;
      ts := ts0 + [op] + us;
      x := RhsGrammar.Operand(op, w);
    }

    /** `.field` after a name, as often as it comes. */
    method ParseFields(ghost t0: seq<Token>, name: Token, ghost want: seq<string>, ghost rest: seq<Token>) returns (e: string, ts: seq<Token>, ghost fs: seq<string>)
      requires Valid() && Took(t0, taken, [name]) && name.kind in {IDENTIFIER, VARIABLE}
      modifies this`current, this`taken, this`hadError, lexer
      ensures Valid() && Left() <= old(Left()) && (old(hadError) ==> hadError) && Took(t0, taken, ts)
      ensures !hadError ==> IsPath(name, fs, e, ts)
      ensures FieldsRead(want, rest, name.text, old(Upcoming()), old(hadError), Upcoming(), hadError, e)
    {
      hide *;
      ghost var i := 0;
      e, ts, fs := name.text, [name], [];
      PathBegins(name);
      FieldsBegin(want, rest, name.text, Upcoming(), hadError);
      while current.kind == DOT
        invariant Valid() && Left() <= old(Left()) && (old(hadError) ==> hadError) && Took(t0, taken, ts)
        invariant !hadError ==> IsPath(name, fs, e, ts)
        invariant FieldsSoFar(want, rest, name.text, old(Upcoming()), old(hadError), i, Upcoming(), hadError, e)
        decreases Left()
      {
        e, ts, fs := ParseField(t0, e, ts, name, fs, want, rest, old(Upcoming()), old(hadError), i);
        i := i + 1;
      }
      UpcomingHead();
      FieldsEnd(want, rest, name.text, old(Upcoming()), old(hadError), i, Upcoming(), hadError, e);
    }

    method ParseField(ghost t0: seq<Token>, e0: string, ts0: seq<Token>, ghost name: Token, ghost fs0: seq<string>, ghost want: seq<string>, ghost rest: seq<Token>,
                      ghost up0: seq<Token>, ghost err0: bool, ghost i: nat) returns (e: string, ts: seq<Token>, ghost fs: seq<string>)
      requires Valid() && current.kind == DOT && Took(t0, taken, ts0) && (!hadError ==> IsPath(name, fs0, e0, ts0))
      requires FieldsSoFar(want, rest, name.text, up0, err0, i, Upcoming(), hadError, e0)
      modifies this`current, this`taken, this`hadError, lexer
      ensures Valid() && Left() < old(Left()) && (old(hadError) ==> hadError) && Took(t0, taken, ts)
      ensures !hadError ==> IsPath(name, fs, e, ts)
      ensures FieldsSoFar(want, rest, name.text, up0, err0, i + 1, Upcoming(), hadError, e)
    {
      hide *;
      UpcomingHead();
      ghost var t1 := taken;
      var dot := Advance();
      WordIs(dot);
      ghost var t2, up2 := taken, Upcoming();
      var field := Consume(IDENTIFIER);
      TookNone(t2);
      var us := if field.kind == IDENTIFIER then [field] else [];
      if !hadError { PathGoesOn(name, fs0, e0, ts0, dot, field); }
      TookThen3(t0, t1, t2, taken, ts0, [dot], us);
      FieldsGoOn(want, rest, name.text, up0, err0, i, old(Upcoming()), old(hadError), e0, up2, field, Upcoming(), hadError);
      ts := ts0 + [dot] + us;
      e := e0 + "." + field.text;
      fs := fs0 + [field.text];
    }

    method ParseTerm(ghost want: Expr, ghost rest: seq<Token>) returns (e: string, ts: seq<Token>, ghost w: Expr)
      requires Valid()
      modifies this`current, this`taken, this`hadError, lexer
      ensures Valid() && Left() <= old(Left()) && (old(hadError) ==> hadError) && Took(old(taken), taken, ts)
      ensures !hadError ==> IsTree(w, 6, e, ts) && Left() < old(Left())
      ensures Reads(want, rest, 6, old(Upcoming()), old(hadError), Upcoming(), hadError, e)
      decreases Left(), 2
    {
      hide *;
      UpcomingHead();
      ghost var t0 := taken;
      if current.kind == LPAREN {
        e, ts, w := ParseParens(want, rest);
      } else if current.kind == INTEGER || current.kind == DOUBLE || current.kind == STRING {
        var t := Advance();
        LeafTrees(t);
        e, ts := if t.kind == STRING then Quoted(t.text) else t.text, [t];
        w := if t.kind == STRING then Text(t.text) else Number(t);
        LeafRead(want, rest, old(Upcoming()), old(hadError), t, Upcoming(), e);
      } else if current.kind == IDENTIFIER || current.kind == VARIABLE {
        var name := Advance();
        ghost var up1, fs := Upcoming(), [];
        UpcomingHead();
        if name.kind == IDENTIFIER && current.kind == LPAREN {
          e, ts, w := ParseCall(name, t0, old(Upcoming()), want, rest);
        } else {
          e, ts, fs := ParseFields(t0, name, PathOf(want), rest);
          if !hadError { PathTree(name, fs, e, ts); }
          w := Name(name, fs);
          NameRead(want, rest, old(Upcoming()), old(hadError), name, up1, Upcoming(), hadError, e);
        }
      } else {
        hadError := true;
        TookNone(taken);
        e, ts, w := "", [], want;
        NothingRead(want, rest, old(Upcoming()), old(hadError), Upcoming(), hadError, e);
      }
    }

    method ParseParens(ghost want: Expr, ghost rest: seq<Token>) returns (e: string, ts: seq<Token>, ghost w: Expr)
      requires Valid() && current.kind == LPAREN
      modifies this`current, this`taken, this`hadError, lexer
      ensures Valid() && Left() < old(Left()) && (old(hadError) ==> hadError) && Took(old(taken), taken, ts)
      ensures !hadError ==> IsTree(w, 6, e, ts)
      ensures Reads(want, rest, 6, old(Upcoming()), old(hadError), Upcoming(), hadError, e)
      decreases Left(), 0
    {
      hide *;
      ghost var x := want;
      var inner, us;
      var lp := Advance();
      WordIs(lp);
      ghost var t1, up1 := taken, Upcoming();
      inner, us, x := ParseExpression(InnerOf(want), [Word(RPAREN)] + rest);
      ghost var t2, up2, err2 := taken, Upcoming(), hadError;
      var rp := Consume(RPAREN);
      TookNone(t2);
      var rps := if rp.kind == RPAREN then [rp] else [];
      if !hadError {
        WordIs(rp);
        GroupTree(lp, x, inner, us, rp);
      }
      TookThen3(old(taken), t1, t2, taken, [lp], us, rps);
      GroupRead(want, rest, old(Upcoming()), old(hadError), lp, up1, up2, err2, inner, rp, Upcoming(), hadError);
      ts := [lp] + us + rps;
      e := "(" + inner + ")";
      w := Group(x);
    }

    /** The arguments of a function call, and the call as it is emitted. */
    method ParseCall(name: Token, ghost t0: seq<Token>, ghost up0: seq<Token>, ghost want: Expr, ghost rest: seq<Token>) returns (e: string, ts: seq<Token>, ghost w: Expr)
      requires Valid() && current.kind == LPAREN && name.kind == IDENTIFIER && Took(t0, taken, [name]) && up0 == [name] + Upcoming()
      modifies this`current, this`taken, this`hadError, lexer
      ensures Valid() && Left() < old(Left()) && (old(hadError) ==> hadError) && Took(t0, taken, ts)
      ensures !hadError ==> IsTree(w, 6, e, ts)
      ensures Reads(want, rest, 6, up0, old(hadError), Upcoming(), hadError, e)
      decreases Left(), 1
    {
      hide *;
      ghost var t1, ws := taken, [];
      var args, us;
      var lp := Advance();
      WordIs(lp);
      ghost var t2, up2 := taken, Upcoming();
      args, us, ws := ParseArguments(ArgsOf(want), [Word(RPAREN)] + rest);
      ghost var t3, up3, err3 := taken, Upcoming(), hadError;
      var rp := Consume(RPAREN);
      ghost var up4, err4 := Upcoming(), hadError;
      TookNone(t3);
      var rps := if rp.kind == RPAREN then [rp] else [];
      TookThen(t2, t3, taken, us, rps);
      TookThen(t1, t2, taken, [lp], us + rps);
      TookThen(t0, t1, taken, [name], [lp] + (us + rps));
      ts, w := [name] + ([lp] + (us + rps)), Call(name.text, ws);
      e := EmitCall(NewName(name.text), args);
      if !hadError {
        WordIs(rp);
        CallTree(name, lp, ws, args, us, rp);
      }
      CallRead(want, rest, up0, old(hadError), name, old(Upcoming()), lp, up2, up3, err3, args, rp, up4, err4, Upcoming(), hadError, e);
    }

    /** A call as it is emitted; `concat` becomes a sum, and needs an argument. */
    method EmitCall(name: string, args: seq<string>) returns (e: string)
      modifies this`hadError
      ensures hadError == (old(hadError) || (name == "concat" && args == []))
      ensures !(name == "concat" && args == []) ==> e == CallText(name, args)
    {
      if name == "concat" && args == [] {
        hadError := true;
        e := "";
      } else {
        e := if name == "concat" then "(" + JoinPlus(args) + ")" else name + "(" + JoinArgs(args) + ")";
      }
    }

    method ParseArguments(ghost wants: seq<Expr>, ghost rest: seq<Token>) returns (args: seq<string>, ts: seq<Token>, ghost ws: seq<Expr>)
      requires Valid()
      modifies this`current, this`taken, this`hadError, lexer
      ensures Valid() && Left() <= old(Left()) && (old(hadError) ==> hadError) && Took(old(taken), taken, ts)
      ensures !hadError ==> AreArgs(ws, args, ts) && |ws| == |args|
      ensures ArgsRead(wants, rest, old(Upcoming()), old(hadError), Upcoming(), hadError, args)
      decreases Left(), 12
    {
      hide *;
      UpcomingHead();
      args, ts, ws := [], [], [];
      NoArgs();
      TookNone(taken);
      if current.kind == RPAREN {
        NoArgsRead(wants, rest, Upcoming(), hadError);
        return;
      }
      ghost var i, w := 1, ArgOf(wants, 0);
      var e;
      e, ts, w := ParseExpression(ArgOf(wants, 0), AfterArg(wants, 0, rest));
      args, ws := [e], [w];
      if !hadError { FirstArg(w, e, ts); }
      FirstArgRead(wants, rest, old(Upcoming()), old(hadError), Upcoming(), hadError, e);
      while current.kind == COMMA
        invariant Valid() && Left() <= old(Left()) && (old(hadError) ==> hadError) && Took(old(taken), taken, ts) && ws != [] && |ws| == |args|
        invariant !hadError ==> AreArgs(ws, args, ts)
        invariant ArgsSoFar(wants, rest, old(Upcoming()), old(hadError), i, Upcoming(), hadError, args)
        decreases Left()
      {
        UpcomingHead();
        var us;
        ghost var t1, up1, err1 := taken, Upcoming(), hadError;
        var comma := Advance();
        WordIs(comma);
        ghost var t2, up2 := taken, Upcoming();
        e, us, w := ParseExpression(ArgOf(wants, i), AfterArg(wants, i, rest));
        TookThen3(old(taken), t1, t2, taken, ts, [comma], us);
        if !hadError { NextArg(ws, args, ts, comma, w, e, us); }
        NextArgRead(wants, rest, old(Upcoming()), old(hadError), i, up1, err1, args, up2, Upcoming(), hadError, e);
        args, ts, ws, i := args + [e], ts + [comma] + us, ws + [w], i + 1;
      }
      UpcomingHead();
      ArgsEnd(wants, rest, old(Upcoming()), old(hadError), i, Upcoming(), hadError, args);
    }

    // ---- Checking names ----

    /** Targets and list elements must be fact bindings: an error exactly if the name is none. */
    method CheckFact(name: string)
      modifies this`hadError
      ensures hadError == (old(hadError) || (name != "" && name !in CurrentScope().facts))
    {
      if name != "" && name !in bindings && name !in locals { hadError := true; }
    }

    method CheckSource(name: string)
      modifies this`hadError
      ensures hadError == (old(hadError) || (name != "" && name !in Sources(CurrentScope())))
    {
      if name != "" && name !in bindings && name !in locals && name !in globals { hadError := true; }
    }

    /** `validate_value_source_ref`: an error exactly if the base of the reference is not available. */
    method CheckReference(ref: string) returns (ok: bool)
      modifies this`hadError
      ensures ok <==> (ref != "" && ref[0] == '$' ==> Base(ref) in Sources(CurrentScope()))
      ensures hadError == (old(hadError) || !ok)
    {
      if ref == "" || ref[0] != '$' { return true; }
      var name := Base(ref);
      if name !in bindings && name !in locals && name !in globals {
        hadError := true;
        return false;
      }
      return true;
    }

    /** Compile an expression text and check every reference in it: an error exactly if the text is
        empty or refers to something that is not available. */
    method CheckExpression(e: string) returns (compiled: bool)
      modifies this`hadError
      ensures compiled <==> e != ""
      ensures hadError == (old(hadError) || e == "" || !RefsOk(e, Sources(CurrentScope())))
    {
      hide *;
      var vars;
      compiled, vars := Compile(e);
      if !compiled {
        hadError := true;
        return;
      }
      ghost var available := Sources(CurrentScope());
      GenuineDollar(e, vars);
      if RefsOk(e, available) { GenuineAvailable(e, vars, available); }
      for i := 0 to |vars|
        invariant hadError == old(hadError)
        invariant forall j :: 0 <= j < i ==> Base(vars[j]) in available
      {
        assert vars[i] in vars;
        var ok := CheckReference(vars[i]);
        if !ok { return; }
      }
      CollectedRefsOk(e, vars, available);
    }

    /** An expression that is compiled and whose references are checked.  Every variable token it
        consumed that has a name is available then. */
    method ParseCondition(ghost want: Expr, ghost rest: seq<Token>) returns (c: Condition, compiled: bool)
      requires Valid()
      modifies this`current, this`taken, this`hadError, lexer
      ensures Valid() && Left() <= old(Left()) && (old(hadError) ==> hadError) && (!compiled ==> hadError)
      ensures Took(old(taken), taken, c.tokens)
      ensures !hadError ==> ConditionScoped(c, CurrentScope()) && ConditionWritten(c, c.tokens)
      ensures TestRead(want, rest, CurrentScope(), old(Upcoming()), old(hadError), Upcoming(), hadError, compiled, c)
      decreases Left(), 12
    {
      hide *;
      UpcomingHead();
      WholeInput();
      ghost var w := want;
      var e, ts;
      e, ts, w := ParseExpression(want, rest);
      ghost var err := hadError;
      TookFirst(old(taken), old(Upcoming()), ts);
      compiled := CheckExpression(e);
      c := Condition(e, ts);
      TakenOk();
      if !err {
        TreeParsed(w, e, ts, old(taken), taken);
        if !hadError {
          ConditionIsScoped(c, old(taken), taken, CurrentScope());
          ConditionIsWritten(c);
        }
      }
      TestIsRead(want, rest, CurrentScope(), old(Upcoming()), old(hadError), old(current), Upcoming(), err, e, ts, hadError, compiled);
    }

    // ---- Consuming with a record of the tokens ----

    /** `advance`, with the tokens since `t0`. */
    method Skip(ghost t0: seq<Token>, ghost ts: seq<Token>) returns (t: Token, ghost us: seq<Token>)
      requires Valid() && current.kind != END && (!hadError ==> Took(t0, taken, ts))
      modifies this`current, this`taken, lexer
      ensures Valid() && t == old(current) && TokenOk(t) && us == ts + [t] && Left() < old(Left()) && old(Upcoming()) == [t] + Upcoming()
      ensures !hadError ==> Took(t0, taken, us)
    {
      hide *;
      ghost var t1 := taken;
      t := Advance();
      us := ts + [t];
      if !hadError { TookThen(t0, t1, taken, ts, [t]); }
    }

    /** `consume`, with the tokens since `t0`. */
    method Take(kind: Type, ghost t0: seq<Token>, ghost ts: seq<Token>) returns (t: Token, ghost us: seq<Token>)
      requires Valid() && kind != END && kind != ERROR && (!hadError ==> Took(t0, taken, ts))
      modifies this`current, this`taken, this`hadError, lexer
      ensures Valid() && Left() <= old(Left()) && (old(hadError) ==> hadError) && us == ts + [t] && (t.kind == VARIABLE ==> t.text != "")
      ensures !hadError ==> old(current).kind == kind && t.kind == kind && TokenOk(t) && Took(t0, taken, us) && Left() < old(Left())
      ensures TakesKind(kind, old(Upcoming()), old(hadError), t, Upcoming(), hadError)
    {
      hide *;
      ghost var t1 := taken;
      t := Consume(kind);
      us := ts + [t];
      if !hadError { TookThen(t0, t1, taken, ts, [t]); }
    }

    // ---- Actions ----

    /** `parse_action`: without an error the action is well scoped and written by the tokens consumed.
        If the statement `want` is ahead, it is accepted exactly if it is good, and gives its action.
        In every case the loop variables in scope are as before. */
    method ParseAction(ghost want: Statement, ghost rest: seq<Token>) returns (a: Action, ghost ts: seq<Token>)
      requires Valid()
      modifies this`current, this`taken, this`hadError, this`locals, lexer
      ensures Valid() && Left() <= old(Left()) && (old(hadError) ==> hadError) && locals == old(locals)
      ensures !hadError ==> Left() < old(Left()) && Scoped(a, CurrentScope())
      ensures !hadError ==> Took(old(taken), taken, ts) && Writes(a, ts)
      ensures StatementRead(want, rest, CurrentScope(), isBuiltin, old(Upcoming()), old(hadError), Upcoming(), hadError, a)
      decreases Left(), 22
    {
      hide *;
      if current.kind == UPDATE {
        a, ts := ParseUpdate(want, rest);
      } else if current.kind == INSERT || current.kind == INSERT_LOGICAL {
        a, ts := ParseInsert(current.kind == INSERT_LOGICAL, want, rest);
      } else if current.kind == RETRACT {
        a, ts := ParseRetract(want, rest);
      } else if current.kind == HALT {
        a, ts := ParseSimple(Halt, want, rest);
      } else if current.kind == SET_FOCUS {
        a, ts := ParseSetFocus(want, rest);
      } else if current.kind == IF {
        a, ts := ParseIf(want, rest);
      } else {
        a, ts := ParseOtherAction(want, rest);
      }
    }

    method ParseOtherAction(ghost want: Statement, ghost rest: seq<Token>) returns (a: Action, ghost ts: seq<Token>)
      requires Valid() && current.kind !in {UPDATE, INSERT, INSERT_LOGICAL, RETRACT, HALT, SET_FOCUS, IF}
      modifies this`current, this`taken, this`hadError, this`locals, lexer
      ensures Valid() && Left() <= old(Left()) && (old(hadError) ==> hadError) && locals == old(locals)
      ensures !hadError ==> Left() < old(Left()) && Scoped(a, CurrentScope())
      ensures !hadError ==> Took(old(taken), taken, ts) && Writes(a, ts)
      ensures StatementRead(want, rest, CurrentScope(), isBuiltin, old(Upcoming()), old(hadError), Upcoming(), hadError, a)
      decreases Left(), 21
    {
      hide *;
      UpcomingHead();
      if current.kind == FOR {
        a, ts := ParseFor(want, rest);
      } else if current.kind == WHILE {
        a, ts := ParseWhile(want, rest);
      } else if current.kind == SWITCH {
        a, ts := ParseSwitch(want, rest);
      } else if current.kind == BREAK {
        a, ts := ParseSimple(Break, want, rest);
      } else if current.kind == CONTINUE {
        a, ts := ParseSimple(Continue, want, rest);
      } else {
        hadError := true;
        a, ts := Failed, [];
        NoStatement(want, rest, CurrentScope(), isBuiltin, old(Upcoming()), old(hadError), Upcoming(), hadError, a);
      }
    }

    /** Actions up to a closing brace. */
    method ParseBlock(ghost want: seq<Statement>, ghost rest: seq<Token>) returns (acts: seq<Action>, ghost ts: seq<Token>)
      requires Valid()
      modifies this`current, this`taken, this`hadError, this`locals, lexer
      ensures Valid() && Left() <= old(Left()) && (old(hadError) ==> hadError) && locals == old(locals)
      ensures !hadError ==> AllScoped(acts, CurrentScope())
      ensures !hadError ==> Took(old(taken), taken, ts) && WritesAll(acts, ts)
      ensures ProgramRead(want, rest, CurrentScope(), isBuiltin, old(Upcoming()), old(hadError), Upcoming(), hadError, acts)
      decreases Left(), 23
    {
      hide *;
      ghost var sc, i := CurrentScope(), 0;
      acts, ts := [], [];
      NothingScoped(sc);
      NothingWritten();
      TookNone(taken);
      ProgramStart(want, rest, sc, isBuiltin, Upcoming(), hadError);
      while current.kind != RBRACE && current.kind != END && !hadError
        invariant Valid() && Left() <= old(Left()) && (old(hadError) ==> hadError) && locals == old(locals) && CurrentScope() == sc
        invariant !hadError ==> AllScoped(acts, sc)
        invariant !hadError ==> Took(old(taken), taken, ts) && WritesAll(acts, ts)
        invariant ProgramSoFar(want, rest, sc, isBuiltin, old(Upcoming()), old(hadError), i, Upcoming(), hadError, acts)
        decreases Left(), !hadError
      {
        UpcomingHead();
        ghost var up1, err1, t1 := Upcoming(), hadError, taken;
        var a;
        ghost var us;
        a, us := ParseAction(StatementAt(want, i), AfterStatement(want, i, rest));
        if !hadError {
          OneMoreScoped(acts, a, sc);
          OneMoreWritten(acts, ts, a, us);
          TookThen(old(taken), t1, taken, ts, us);
        }
        ProgramGoesOn(want, rest, sc, isBuiltin, old(Upcoming()), old(hadError), i, up1, err1, acts, Upcoming(), hadError, a);
        acts, ts, i := acts + [a], ts + us, i + 1;
      }
      UpcomingHead();
      ProgramEnds(want, rest, sc, isBuiltin, old(Upcoming()), old(hadError), i, Upcoming(), hadError, acts);
    }

    /** A block in braces. */
    method ParseBraces(ghost want: seq<Statement>, ghost rest: seq<Token>) returns (acts: seq<Action>, ghost ts: seq<Token>)
      requires Valid()
      modifies this`current, this`taken, this`hadError, this`locals, lexer
      ensures Valid() && Left() <= old(Left()) && (old(hadError) ==> hadError) && locals == old(locals)
      ensures !hadError ==> AllScoped(acts, CurrentScope())
      ensures !hadError ==> Took(old(taken), taken, ts) && Braced(acts, ts)
      ensures BracesRead(want, rest, CurrentScope(), isBuiltin, old(Upcoming()), old(hadError), Upcoming(), hadError, acts)
      decreases Left(), 25
    {
      hide *;
      var lb := Consume(LBRACE);
      ghost var up1, err1, t1, us := Upcoming(), hadError, taken, [];
      acts, us := ParseClosed(want, rest);
      ts := [lb] + us;
      if !hadError { OpenBraces(lb, acts, us, old(taken), t1, taken); }
      BracesAreRead(want, rest, CurrentScope(), isBuiltin, old(Upcoming()), old(hadError), lb, up1, err1, Upcoming(), hadError, acts);
    }

    /** A block and its closing brace. */
    method ParseClosed(ghost want: seq<Statement>, ghost rest: seq<Token>) returns (acts: seq<Action>, ghost ts: seq<Token>)
      requires Valid()
      modifies this`current, this`taken, this`hadError, this`locals, lexer
      ensures Valid() && Left() <= old(Left()) && (old(hadError) ==> hadError) && locals == old(locals)
      ensures !hadError ==> AllScoped(acts, CurrentScope())
      ensures !hadError ==> Took(old(taken), taken, ts) && Closed(acts, ts)
      ensures ClosedRead(want, rest, CurrentScope(), isBuiltin, old(Upcoming()), old(hadError), Upcoming(), hadError, acts)
      decreases Left(), 24
    {
      hide *;
      ghost var us := [];
      acts, us := ParseBlock(want, [Word(RBRACE)] + rest);
      ghost var up1, err1, t1 := Upcoming(), hadError, taken;
      var rb := Consume(RBRACE);
      ts := us + [rb];
      if !hadError { CloseBlock(acts, us, rb, old(taken), t1, taken); }
      ClosedIsRead(want, rest, CurrentScope(), isBuiltin, old(Upcoming()), old(hadError), up1, err1, acts, rb, Upcoming(), hadError);
    }

    method ParseSimple(a: Action, ghost want: Statement, ghost rest: seq<Token>) returns (r: Action, ghost ts: seq<Token>)
      requires Valid() && ((a == Halt && current.kind == HALT) || (a == Break && current.kind == BREAK) || (a == Continue && current.kind == CONTINUE))
      modifies this`current, this`taken, lexer
      ensures Valid() && Left() < old(Left()) && r == a && Scoped(r, CurrentScope())
      ensures Took(old(taken), taken, ts) && Writes(r, ts)
      ensures StatementRead(want, rest, CurrentScope(), isBuiltin, old(Upcoming()), old(hadError), Upcoming(), hadError, r)
    {
      hide *;
      SimpleScoped(a, CurrentScope());
      SimpleWritten(a, current);
      var t := Advance();
      r, ts := a, [t];
      SimpleRead(want, rest, CurrentScope(), isBuiltin, old(Upcoming()), old(hadError), t, Upcoming(), a);
    }

    method ParseRetract(ghost want: Statement, ghost rest: seq<Token>) returns (a: Action, ghost ts: seq<Token>)
      requires Valid() && current.kind == RETRACT
      modifies this`current, this`taken, this`hadError, lexer
      ensures Valid() && Left() < old(Left()) && (old(hadError) ==> hadError)
      ensures !hadError ==> Scoped(a, CurrentScope())
      ensures !hadError ==> Took(old(taken), taken, ts) && Writes(a, ts)
      ensures StatementRead(want, rest, CurrentScope(), isBuiltin, old(Upcoming()), old(hadError), Upcoming(), hadError, a)
    {
      hide *;
      var v;
      var kw := Advance();
      ghost var up1 := Upcoming();
      ts := [kw];
      v, ts := Take(VARIABLE, old(taken), ts);
      ghost var err2 := hadError;
      CheckFact(v.text);
      a := Retract(v.text);
      if !hadError {
        RetractScoped(v, CurrentScope());
        RetractWritten(kw, v);
      }
      RetractRead(want, rest, CurrentScope(), isBuiltin, old(Upcoming()), old(hadError), kw, up1, v, Upcoming(), err2, hadError);
    }

    method ParseUpdate(ghost want: Statement, ghost rest: seq<Token>) returns (a: Action, ghost ts: seq<Token>)
      requires Valid() && current.kind == UPDATE
      modifies this`current, this`taken, this`hadError, lexer
      ensures Valid() && Left() < old(Left()) && (old(hadError) ==> hadError)
      ensures !hadError ==> Scoped(a, CurrentScope())
      ensures !hadError ==> Took(old(taken), taken, ts) && Writes(a, ts)
      ensures StatementRead(want, rest, CurrentScope(), isBuiltin, old(Upcoming()), old(hadError), Upcoming(), hadError, a)
      decreases Left(), 20
    {
      hide *;
      var v, fs;
      ghost var bs;
      var kw := Advance();
      ghost var up1 := Upcoming();
      ts := [kw];
      v, ts := Take(VARIABLE, old(taken), ts);
      ghost var t1, up2, err2 := taken, Upcoming(), hadError;
      CheckFact(v.text);
      ghost var err3 := hadError;
      fs, bs := ParseAssignmentBlock(FieldsIn(want), TrailingIn(want), rest);
      a := Update(v.text, fs);
      if !hadError {
        UpdateScoped(v, fs, CurrentScope());
        UpdateWritten(kw, v, fs, bs);
        TookThen(old(taken), t1, taken, ts, bs);
      }
      ts := ts + bs;
      UpdateRead(want, rest, CurrentScope(), isBuiltin, old(Upcoming()), old(hadError), kw, up1, v, up2, err2, err3, Upcoming(), hadError, fs);
    }

    method ParseInsert(logical: bool, ghost want: Statement, ghost rest: seq<Token>) returns (a: Action, ghost ts: seq<Token>)
      requires Valid() && current.kind == if logical then INSERT_LOGICAL else INSERT
      modifies this`current, this`taken, this`hadError, lexer
      ensures Valid() && Left() < old(Left()) && (old(hadError) ==> hadError)
      ensures !hadError ==> Scoped(a, CurrentScope())
      ensures !hadError ==> Took(old(taken), taken, ts) && Writes(a, ts)
      ensures StatementRead(want, rest, CurrentScope(), isBuiltin, old(Upcoming()), old(hadError), Upcoming(), hadError, a)
      decreases Left(), 20
    {
      hide *;
      var name, fs;
      ghost var bs;
      var kw := Advance();
      ghost var up1 := Upcoming();
      ts := [kw];
      name, ts := Take(IDENTIFIER, old(taken), ts);
      ghost var t1, up2, err2 := taken, Upcoming(), hadError;
      fs, bs := ParseAssignmentBlock(FieldsIn(want), TrailingIn(want), rest);
      a := Insert(name.text, fs, logical);
      if !hadError {
        InsertScoped(name.text, fs, logical, CurrentScope());
        InsertWritten(kw, name, fs, bs, logical);
        TookThen(old(taken), t1, taken, ts, bs);
      }
      ts := ts + bs;
      InsertRead(want, rest, CurrentScope(), isBuiltin, old(Upcoming()), old(hadError), kw, up1, name, up2, err2, Upcoming(), hadError, fs, logical);
    }

    method ParseSetFocus(ghost want: Statement, ghost rest: seq<Token>) returns (a: Action, ghost ts: seq<Token>)
      requires Valid() && current.kind == SET_FOCUS
      modifies this`current, this`taken, this`hadError, lexer
      ensures Valid() && Left() < old(Left()) && (old(hadError) ==> hadError)
      ensures !hadError ==> Scoped(a, CurrentScope())
      ensures !hadError ==> Took(old(taken), taken, ts) && Writes(a, ts)
      ensures StatementRead(want, rest, CurrentScope(), isBuiltin, old(Upcoming()), old(hadError), Upcoming(), hadError, a)
    {
      hide *;
      var lp, group, rp;
      var kw := Advance();
      ghost var up1 := Upcoming();
      ts := [kw];
      lp, ts := Take(LPAREN, old(taken), ts);
      ghost var up2, err2 := Upcoming(), hadError;
      group, ts := Take(STRING, old(taken), ts);
      ghost var up3, err3 := Upcoming(), hadError;
      rp, ts := Take(RPAREN, old(taken), ts);
      a := SetFocus(group.text);
      SimpleScoped(a, CurrentScope());
      if !hadError {
        SetFocusWritten(kw, lp, group, rp);
      }
      FocusRead(want, rest, CurrentScope(), isBuiltin, old(Upcoming()), old(hadError), kw, up1, lp, up2, err2, group, up3, err3, rp, Upcoming(), hadError);
    }

    method ParseIf(ghost want: Statement, ghost rest: seq<Token>) returns (a: Action, ghost ts: seq<Token>)
      requires Valid() && current.kind == IF
      modifies this`current, this`taken, this`hadError, this`locals, lexer
      ensures Valid() && Left() < old(Left()) && (old(hadError) ==> hadError) && locals == old(locals)
      ensures !hadError ==> Scoped(a, CurrentScope())
      ensures !hadError ==> Took(old(taken), taken, ts) && Writes(a, ts) && a.If?
      ensures StatementRead(want, rest, CurrentScope(), isBuiltin, old(Upcoming()), old(hadError), Upcoming(), hadError, a)
      decreases Left(), 21
    {
      hide *;
      var kw := Advance();
      ghost var up1, t1 := Upcoming(), taken;
      var e, compiled := ParseCondition(TestIn(want), BlockTokens(BodyIn(want)) + AfterThen(want, rest));
      ghost var up2, err2, t2 := Upcoming(), hadError, taken;
      if !compiled {
        a, ts := Failed, [];
        IfRead(want, rest, CurrentScope(), isBuiltin, old(Upcoming()), old(hadError), kw, up1, up2, err2, false, e, up2, err2, [], up2, err2, [], a);
        return;
      }
      var thens, elses;
      ghost var bs, es;
      thens, bs := ParseBraces(BodyIn(want), AfterThen(want, rest));
      ghost var up3, err3, t3 := Upcoming(), hadError, taken;
      elses, es := ParseElse(OtherIn(want), rest);
      a, ts := If(e, thens, elses), [kw] + e.tokens + bs + es;
      if !hadError {
        IfScoped(e, thens, elses, CurrentScope());
        IfWritten(kw, e, thens, bs, elses, es);
        TookThen3(old(taken), t1, t2, t3, [kw], e.tokens, bs);
        TookThen(old(taken), t3, taken, [kw] + e.tokens + bs, es);
      }
      IfRead(want, rest, CurrentScope(), isBuiltin, old(Upcoming()), old(hadError), kw, up1, up2, err2, true, e, up3, err3, thens, Upcoming(), hadError, elses, a);
    }

    /** An else block, an else-if, or nothing. */
    method ParseElse(ghost want: ElsePart, ghost rest: seq<Token>) returns (elses: seq<Action>, ghost ts: seq<Token>)
      requires Valid()
      modifies this`current, this`taken, this`hadError, this`locals, lexer
      ensures Valid() && Left() <= old(Left()) && (old(hadError) ==> hadError) && locals == old(locals)
      ensures !hadError ==> AllScoped(elses, CurrentScope())
      ensures !hadError ==> Took(old(taken), taken, ts) && ElseWritten(elses, ts)
      ensures ElseRead(want, rest, CurrentScope(), isBuiltin, old(Upcoming()), old(hadError), Upcoming(), hadError, elses)
      decreases Left(), 25
    {
      hide *;
      UpcomingHead();
      elses, ts := [], [];
      NothingScoped(CurrentScope());
      NothingWritten();
      TookNone(taken);
      if current.kind == ELSE {
        var el := Advance();
        ghost var t1, up1, us := taken, Upcoming(), [];
        UpcomingHead();
        if current.kind == IF {
          var nested;
          nested, us := ParseIf(NestedIn(want), rest);
          if !hadError {
            OneMoreScoped([], nested, CurrentScope());
            ElseIfWritten(el, nested, us);
          }
          elses := [] + [nested];
          ElseIfRead(want, rest, CurrentScope(), isBuiltin, old(Upcoming()), old(hadError), el, up1, Upcoming(), hadError, nested);
        } else {
          elses, us := ParseBraces(BlockIn(want), rest);
          if !hadError { ElseBlockWritten(el, elses, us); }
          ElseBlockRead(want, rest, CurrentScope(), isBuiltin, old(Upcoming()), old(hadError), el, up1, Upcoming(), hadError, elses);
        }
        if !hadError { TookThen(old(taken), t1, taken, [el], us); }
        ts := [el] + us;
      } else {
        NoElseRead(want, rest, CurrentScope(), isBuiltin, Upcoming(), hadError);
      }
    }

    method ParseWhile(ghost want: Statement, ghost rest: seq<Token>) returns (a: Action, ghost ts: seq<Token>)
      requires Valid() && current.kind == WHILE
      modifies this`current, this`taken, this`hadError, this`locals, lexer
      ensures Valid() && Left() < old(Left()) && (old(hadError) ==> hadError) && locals == old(locals)
      ensures !hadError ==> Scoped(a, CurrentScope())
      ensures !hadError ==> Took(old(taken), taken, ts) && Writes(a, ts)
      ensures StatementRead(want, rest, CurrentScope(), isBuiltin, old(Upcoming()), old(hadError), Upcoming(), hadError, a)
      decreases Left(), 20
    {
      hide *;
      var kw := Advance();
      ghost var up1, t1 := Upcoming(), taken;
      var e, compiled := ParseCondition(TestIn(want), BlockTokens(BodyIn(want)) + rest);
      ghost var up2, err2, t2 := Upcoming(), hadError, taken;
      if !compiled {
        a, ts := Failed, [];
        WhileRead(want, rest, CurrentScope(), isBuiltin, old(Upcoming()), old(hadError), kw, up1, up2, err2, false, e, up2, err2, [], a);
        return;
      }
      var body;
      ghost var bs;
      body, bs := ParseBraces(BodyIn(want), rest);
      a, ts := While(e, body), [kw] + e.tokens + bs;
      if !hadError {
        WhileScoped(e, body, CurrentScope());
        WhileWritten(kw, e, body, bs);
        TookThen3(old(taken), t1, t2, taken, [kw], e.tokens, bs);
      }
      WhileRead(want, rest, CurrentScope(), isBuiltin, old(Upcoming()), old(hadError), kw, up1, up2, err2, true, e, Upcoming(), hadError, body, a);
    }

    method ParseFor(ghost want: Statement, ghost rest: seq<Token>) returns (a: Action, ghost ts: seq<Token>)
      requires Valid() && current.kind == FOR
      modifies this`current, this`taken, this`hadError, this`locals, lexer
      ensures Valid() && Left() < old(Left()) && (old(hadError) ==> hadError) && locals == old(locals)
      ensures !hadError ==> Scoped(a, CurrentScope())
      ensures !hadError ==> Took(old(taken), taken, ts) && Writes(a, ts)
      ensures StatementRead(want, rest, CurrentScope(), isBuiltin, old(Upcoming()), old(hadError), Upcoming(), hadError, a)
      decreases Left(), 20
    {
      hide *;
      UpcomingHead();
      var x, source, ok, lb, body, rb;
      ghost var hs, bs;
      x, source, ok, hs := ParseForHeader(want, rest);
      ghost var up1, err1 := Upcoming(), hadError;
      if !ok {
        a, ts := Failed, [];
        ForRead(want, rest, CurrentScope(), isBuiltin, old(Upcoming()), old(hadError), up1, err1, false, x, source, old(current), up1, err1, up1, err1, [], old(current), up1, err1, a);
        return;
      }
      lb, ts := Take(LBRACE, old(taken), hs);
      ghost var t1, up2, err2 := taken, Upcoming(), hadError;
      body, bs := ParseLoopBody(x, BodyIn(want), [Word(RBRACE)] + rest);
      ghost var up3, err3 := Upcoming(), hadError;
      if !hadError { TookThen(old(taken), t1, taken, ts, bs); }
      rb, ts := Take(RBRACE, old(taken), ts + bs);
      a := For(x, source, body);
      if !hadError {
        InnerIs(CurrentScope(), x);
        ForScoped(x, source, body, CurrentScope());
        ForWritten(x, source, hs, lb, body, bs, rb);
      }
      ForRead(want, rest, CurrentScope(), isBuiltin, old(Upcoming()), old(hadError), up1, err1, true, x, source, lb, up2, err2, up3, err3, body, rb, Upcoming(), hadError, a);
    }

    /** `for $x in source` */
    method ParseForHeader(ghost want: Statement, ghost rest: seq<Token>) returns (x: string, source: Source, ok: bool, ghost ts: seq<Token>)
      requires Valid() && current.kind == FOR
      modifies this`current, this`taken, this`hadError, lexer
      ensures Valid() && Left() < old(Left()) && (old(hadError) ==> hadError) && (!ok ==> hadError) && (x == "" ==> hadError)
      ensures !hadError ==> SourceScoped(source, CurrentScope())
      ensures !hadError ==> Took(old(taken), taken, ts) && HeaderWritten(x, source, ts)
      ensures HeaderRead(want, rest, CurrentScope(), old(Upcoming()), old(hadError), Upcoming(), hadError, ok, x, source)
    {
      hide *;
      var v, kwIn;
      ghost var ss;
      var kw := Advance();
      ghost var up1 := Upcoming();
      ts := [kw];
      v, ts := Take(VARIABLE, old(taken), ts);
      ghost var up2, err2 := Upcoming(), hadError;
      x := v.text;
      kwIn, ts := Take(IN, old(taken), ts);
      ghost var t1, up3, err3 := taken, Upcoming(), hadError;
      source, ok, ss := ParseSource(SourceIn(want), BlockTokens(BodyIn(want)) + rest);
      if !hadError {
        IsHeader(kw, v, kwIn, source, ss);
        TookThen(old(taken), t1, taken, ts, ss);
      }
      HeaderIsRead(want, rest, CurrentScope(), old(Upcoming()), old(hadError), kw, up1, v, up2, err2, kwIn, up3, err3, Upcoming(), hadError, ok, source);
      ts := ts + ss;
    }

    /** The loop variable joins the scope for the body, unless an enclosing loop already uses its
        name, and leaves it again only if it joined here. */
    method ParseLoopBody(x: string, ghost want: seq<Statement>, ghost rest: seq<Token>) returns (body: seq<Action>, ghost ts: seq<Token>)
      requires Valid() && (x == "" ==> hadError)
      modifies this`current, this`taken, this`hadError, this`locals, lexer
      ensures Valid() && Left() <= old(Left()) && (old(hadError) ==> hadError) && locals == old(locals)
      ensures !hadError ==> AllScoped(body, InnerScope(CurrentScope(), x))
      ensures !hadError ==> Took(old(taken), taken, ts) && WritesAll(body, ts)
      ensures ProgramRead(want, rest, InnerScope(CurrentScope(), x), isBuiltin, old(Upcoming()), old(hadError), Upcoming(), hadError, body)
      decreases Left(), 24
    {
      ghost var inner := InnerScope(CurrentScope(), x);
      var inserted := x != "" && x !in locals;
      if inserted { locals := locals + {x}; }
      assert x != "" ==> CurrentScope() == inner;
      hide *;
      body, ts := ParseBlock(want, rest);
      if inserted { locals := locals - {x}; }
      assert locals == old(locals);
      if x == "" { AfterError(want, rest, inner, isBuiltin, old(Upcoming()), Upcoming(), hadError, body); }
    }

    /** The list or the variable a loop runs over. */
    method ParseSource(ghost want: Source, ghost rest: seq<Token>) returns (source: Source, ok: bool, ghost ts: seq<Token>)
      requires Valid()
      modifies this`current, this`taken, this`hadError, lexer
      ensures Valid() && Left() <= old(Left()) && (old(hadError) ==> hadError) && (!ok ==> hadError)
      ensures !hadError ==> SourceScoped(source, CurrentScope())
      ensures !hadError ==> Took(old(taken), taken, ts) && SourceWritten(source, ts)
      ensures SourceRead(want, rest, CurrentScope(), old(Upcoming()), old(hadError), Upcoming(), hadError, ok, source)
    {
      hide *;
      UpcomingHead();
      ok := true;
      if current.kind == LPAREN {
        source, ts := ParseListSource(want, rest);
      } else if current.kind == VARIABLE {
        source, ts := ParseVariableSource(want, rest);
      } else {
        hadError := true;
        source, ok, ts := ListOf([]), false, [];
        NoSource(want, rest, CurrentScope(), old(Upcoming()), old(hadError), Upcoming(), hadError, ok, source);
      }
    }

    method ParseVariableSource(ghost want: Source, ghost rest: seq<Token>) returns (source: Source, ghost ts: seq<Token>)
      requires Valid() && current.kind == VARIABLE
      modifies this`current, this`taken, this`hadError, lexer
      ensures Valid() && Left() <= old(Left()) && (old(hadError) ==> hadError)
      ensures !hadError ==> SourceScoped(source, CurrentScope())
      ensures !hadError ==> Took(old(taken), taken, ts) && SourceWritten(source, ts)
      ensures SourceRead(want, rest, CurrentScope(), old(Upcoming()), old(hadError), Upcoming(), hadError, true, source)
    {
      hide *;
      var v := Advance();
      VariableText(v);
      ts := [v];
      UpcomingHead();
      ghost var up1 := Upcoming();
      CheckSource(v.text);
      ghost var err1 := hadError;
      if !hadError {
        VariableScoped(v, "", CurrentScope());
        VariableWritten(v);
      }
      source := Variable(v.text, "");
      if current.kind == DOT {
        var dot, field;
        dot, ts := Skip(old(taken), ts);
        ghost var up2 := Upcoming();
        field, ts := Take(IDENTIFIER, old(taken), ts);
        source := Variable(v.text, field.text);
        if !hadError {
          VariableScoped(v, field.text, CurrentScope());
          FieldSourceWritten(v, dot, field);
        }
        SourceFieldRead(want, rest, CurrentScope(), old(Upcoming()), old(hadError), v, up1, err1, dot, up2, field, Upcoming(), hadError);
      } else {
        VariableRead(want, rest, CurrentScope(), old(Upcoming()), old(hadError), v, Upcoming(), hadError, source);
      }
    }

    method ParseListSource(ghost want: Source, ghost rest: seq<Token>) returns (source: Source, ghost ts: seq<Token>)
      requires Valid() && current.kind == LPAREN
      modifies this`current, this`taken, this`hadError, lexer
      ensures Valid() && Left() <= old(Left()) && (old(hadError) ==> hadError)
      ensures !hadError ==> SourceScoped(source, CurrentScope())
      ensures !hadError ==> Took(old(taken), taken, ts) && SourceWritten(source, ts)
      ensures SourceRead(want, rest, CurrentScope(), old(Upcoming()), old(hadError), Upcoming(), hadError, true, source)
    {
      hide *;
      var vars, rp;
      ghost var us;
      var lp := Advance();
      ghost var up1 := Upcoming();
      ts := [lp];
      vars, us := ParseVariableList(old(taken), lp, VarsIn(want), [Word(RPAREN)] + rest);
      ghost var up2, err2 := Upcoming(), hadError;
      rp, ts := Take(RPAREN, old(taken), us);
      source := ListOf(vars);
      if !hadError {
        ListScoped(vars, CurrentScope());
        ListEnds(vars, us, rp);
      }
      ListRead(want, rest, CurrentScope(), old(Upcoming()), old(hadError), lp, up1, up2, err2, vars, rp, Upcoming(), hadError);
    }

    method ParseVariableList(ghost t0: seq<Token>, lp: Token, ghost want: seq<string>, ghost rest: seq<Token>) returns (vars: seq<string>, ghost ts: seq<Token>)
      requires Valid() && lp.kind == LPAREN && (!hadError ==> Took(t0, taken, [lp]))
      modifies this`current, this`taken, this`hadError, lexer
      ensures Valid() && Left() <= old(Left()) && (old(hadError) ==> hadError)
      ensures !hadError ==> forall i :: 0 <= i < |vars| ==> vars[i] in CurrentScope().facts
      ensures !hadError ==> Took(t0, taken, ts) && ListStarted(vars, ts)
      ensures VarsRead(want, rest, CurrentScope(), old(Upcoming()), old(hadError), Upcoming(), hadError, vars)
    {
      hide *;
      ghost var err1, i := hadError, 1;
      var v;
      v, err1 := ListVariable();
      vars, ts := [v.text], [lp] + [v];
      if !hadError {
        ListFirst(lp, v);
        TookThen(t0, old(taken), taken, [lp], [v]);
      }
      FirstVarRead(want, rest, CurrentScope(), old(Upcoming()), old(hadError), v, Upcoming(), err1, hadError);
      while current.kind == COMMA
        invariant Valid() && Left() <= old(Left()) && (old(hadError) ==> hadError)
        invariant !hadError ==> forall i :: 0 <= i < |vars| ==> vars[i] in CurrentScope().facts
        invariant !hadError ==> Took(t0, taken, ts) && ListStarted(vars, ts)
        invariant VarsSoFar(want, rest, CurrentScope(), old(Upcoming()), old(hadError), i, Upcoming(), hadError, vars)
        decreases Left()
      {
        var comma;
        ghost var us, up1, err := [], Upcoming(), hadError;
        comma, us := Skip(t0, ts);
        ghost var t1, up2 := taken, Upcoming();
        v, err1 := ListVariable();
        if !hadError {
          ListNext(vars, ts, comma, v);
          TookThen(t0, t1, taken, us, [v]);
        }
        VarsGoOn(want, rest, CurrentScope(), old(Upcoming()), old(hadError), i, up1, err, vars, comma, up2, v, Upcoming(), err1, hadError);
        vars, ts, i := vars + [v.text], us + [v], i + 1;
      }
      UpcomingHead();
      VarsEnd(want, rest, CurrentScope(), old(Upcoming()), old(hadError), i, Upcoming(), hadError, vars);
    }

    /** An element of the list, which must be a fact binding. */
    method ListVariable() returns (v: Token, ghost err: bool)
      requires Valid()
      modifies this`current, this`taken, this`hadError, lexer
      ensures Valid() && Left() <= old(Left()) && (old(hadError) ==> err) && (v.kind == VARIABLE ==> v.text != "")
      ensures !hadError ==> v.kind == VARIABLE && v.text in CurrentScope().facts && Took(old(taken), taken, [v])
      ensures TakesKind(VARIABLE, old(Upcoming()), old(hadError), v, Upcoming(), err)
      ensures hadError == (err || (v.text != "" && v.text !in CurrentScope().facts))
    {
      hide *;
      v := Consume(VARIABLE);
      err := hadError;
      CheckFact(v.text);
    }

    method ParseSwitch(ghost want: Statement, ghost rest: seq<Token>) returns (a: Action, ghost ts: seq<Token>)
      requires Valid() && current.kind == SWITCH
      modifies this`current, this`taken, this`hadError, this`locals, lexer
      ensures Valid() && Left() < old(Left()) && (old(hadError) ==> hadError) && locals == old(locals)
      ensures !hadError ==> Scoped(a, CurrentScope())
      ensures !hadError ==> Took(old(taken), taken, ts) && Writes(a, ts)
      ensures StatementRead(want, rest, CurrentScope(), isBuiltin, old(Upcoming()), old(hadError), Upcoming(), hadError, a)
      decreases Left(), 20
    {
      hide *;
      ghost var sc := CurrentScope();
      var kw := Advance();
      ghost var up1, t1 := Upcoming(), taken;
      var e, compiled := ParseCondition(TestIn(want), CaseBlockTokens(CasesIn(want)) + rest);
      ghost var up2, err2, t2 := Upcoming(), hadError, taken;
      if !compiled {
        a, ts := Failed, [];
        SwitchRead(want, rest, sc, isBuiltin, old(Upcoming()), old(hadError), kw, up1, up2, err2, false, e, up2, err2, false, [], a);
        return;
      }
      var cases, ok;
      ghost var bs;
      cases, ok, bs := ParseCaseBlock(CasesIn(want), rest);
      a, ts := if ok then Switch(e, cases) else Failed, [kw] + e.tokens + bs;
      if !hadError {
        SwitchScoped(e, cases, CurrentScope());
        SwitchWritten(kw, e, cases, bs);
        TookThen3(old(taken), t1, t2, taken, [kw], e.tokens, bs);
      }
      SwitchRead(want, rest, sc, isBuiltin, old(Upcoming()), old(hadError), kw, up1, up2, err2, true, e, Upcoming(), hadError, ok, cases, a);
    }

    /** The cases of a switch in braces. */
    method ParseCaseBlock(ghost want: seq<CasePart>, ghost rest: seq<Token>) returns (cases: seq<SwitchCase>, ok: bool, ghost ts: seq<Token>)
      requires Valid()
      modifies this`current, this`taken, this`hadError, this`locals, lexer
      ensures Valid() && Left() <= old(Left()) && (old(hadError) ==> hadError) && locals == old(locals) && (!ok ==> hadError)
      ensures !hadError ==> forall i :: 0 <= i < |cases| ==> CaseScoped(cases[i], CurrentScope())
      ensures !hadError ==> Took(old(taken), taken, ts) && CaseBlockWritten(cases, ts)
      ensures CaseBlockRead(want, rest, CurrentScope(), isBuiltin, old(Upcoming()), old(hadError), Upcoming(), hadError, ok, cases)
      decreases Left(), 27
    {
      hide *;
      ghost var cs, t0 := [], taken;
      var rb;
      var lb := Consume(LBRACE);
      ghost var t1, up1, err1 := taken, Upcoming(), hadError;
      cases, ok, cs := ParseCases(want, [Word(RBRACE)] + rest);
      ghost var t2, up2, err2 := taken, Upcoming(), hadError;
      ts := [lb] + cs;
      if !hadError { TookThen(t0, t1, t2, [lb], cs); }
      if ok {
        rb, ts := Take(RBRACE, t0, ts);
        if !hadError { CaseBlockIsWritten(lb, cases, cs, rb); }
      } else {
        rb := lb;
      }
      CaseBlockIsRead(want, rest, CurrentScope(), isBuiltin, old(Upcoming()), old(hadError), lb, up1, err1, up2, err2, ok, cases, rb, Upcoming(), hadError);
    }

    method ParseCases(ghost want: seq<CasePart>, ghost rest: seq<Token>) returns (cases: seq<SwitchCase>, ok: bool, ghost ts: seq<Token>)
      requires Valid()
      modifies this`current, this`taken, this`hadError, this`locals, lexer
      ensures Valid() && Left() <= old(Left()) && (old(hadError) ==> hadError) && locals == old(locals) && (!ok ==> hadError)
      ensures !hadError ==> forall i :: 0 <= i < |cases| ==> CaseScoped(cases[i], CurrentScope())
      ensures !hadError ==> Took(old(taken), taken, ts) && CasesWritten(cases, ts)
      ensures CasesRead(want, rest, CurrentScope(), isBuiltin, old(Upcoming()), old(hadError), Upcoming(), hadError, ok, cases)
      decreases Left(), 26
    {
      hide *;
      ghost var sc, i := CurrentScope(), 0;
      cases, ts := [], [];
      NothingWritten();
      TookNone(taken);
      CasesStart(want, rest, sc, isBuiltin, Upcoming(), hadError);
      while current.kind != RBRACE && current.kind != END && !hadError
        invariant Valid() && Left() <= old(Left()) && (old(hadError) ==> hadError) && locals == old(locals) && CurrentScope() == sc
        invariant !hadError ==> forall i :: 0 <= i < |cases| ==> CaseScoped(cases[i], sc)
        invariant !hadError ==> Took(old(taken), taken, ts) && CasesWritten(cases, ts)
        invariant CasesSoFar(want, rest, sc, isBuiltin, old(Upcoming()), old(hadError), i, Upcoming(), hadError, cases)
        decreases Left(), !hadError
      {
        UpcomingHead();
        var c;
        ghost var t1, us, up1, err1 := taken, [], Upcoming(), hadError;
        c, ok, us := ParseCase(CaseAt(want, i), AfterCase(want, i, rest));
        CasesGoOn(want, rest, sc, isBuiltin, old(Upcoming()), old(hadError), i, up1, err1, cases, Upcoming(), hadError, ok, c);
        if !ok {
          CasesGiveUp(want, rest, sc, isBuiltin, old(Upcoming()), old(hadError), Upcoming(), hadError, cases);
          return;
        }
        if !hadError {
          OneMoreCase(cases, ts, c, us);
          TookThen(old(taken), t1, taken, ts, us);
        }
        cases, ts, i := cases + [c], ts + us, i + 1;
      }
      UpcomingHead();
      ok := true;
      CasesEnd(want, rest, sc, isBuiltin, old(Upcoming()), old(hadError), i, Upcoming(), hadError, cases);
    }

    method ParseCase(ghost want: CasePart, ghost rest: seq<Token>) returns (c: SwitchCase, ok: bool, ghost ts: seq<Token>)
      requires Valid()
      modifies this`current, this`taken, this`hadError, this`locals, lexer
      ensures Valid() && Left() <= old(Left()) && (old(hadError) ==> hadError) && locals == old(locals) && (!ok ==> hadError)
      ensures !hadError ==> Left() < old(Left()) && CaseScoped(c, CurrentScope())
      ensures !hadError ==> Took(old(taken), taken, ts) && CaseWritten(c, ts)
      ensures CaseRead(want, rest, CurrentScope(), isBuiltin, old(Upcoming()), old(hadError), Upcoming(), hadError, ok, c)
      decreases Left(), 25
    {
      hide *;
      UpcomingHead();
      ok := true;
      if current.kind == CASE {
        c, ok, ts := ParseCaseBranch(want, rest);
      } else if current.kind == DEFAULT {
        c, ts := ParseDefaultBranch(want, rest);
      } else {
        hadError := true;
        c, ok, ts := SwitchCase(None, []), false, [];
        NoCase(want, rest, CurrentScope(), isBuiltin, old(Upcoming()), old(hadError), Upcoming(), hadError, ok, c);
      }
    }

    method ParseCaseBranch(ghost want: CasePart, ghost rest: seq<Token>) returns (c: SwitchCase, ok: bool, ghost ts: seq<Token>)
      requires Valid() && current.kind == CASE
      modifies this`current, this`taken, this`hadError, this`locals, lexer
      ensures Valid() && Left() < old(Left()) && (old(hadError) ==> hadError) && locals == old(locals) && (!ok ==> hadError)
      ensures !hadError ==> CaseScoped(c, CurrentScope())
      ensures !hadError ==> Took(old(taken), taken, ts) && CaseWritten(c, ts)
      ensures CaseRead(want, rest, CurrentScope(), isBuiltin, old(Upcoming()), old(hadError), Upcoming(), hadError, ok, c)
      decreases Left(), 20
    {
      hide *;
      var kw := Advance();
      ghost var up1, t1 := Upcoming(), taken;
      var e, compiled := ParseCondition(ValueIn(want), BlockTokens(want.body) + rest);
      ghost var up2, err2, t2 := Upcoming(), hadError, taken;
      if !compiled {
        c, ok, ts := SwitchCase(None, []), false, [];
        BranchRead(want, rest, CurrentScope(), isBuiltin, old(Upcoming()), old(hadError), kw, up1, up2, err2, false, e, up2, err2, [], ok, c);
        return;
      }
      var acts;
      ghost var bs;
      acts, bs := ParseBraces(want.body, rest);
      c, ok, ts := SwitchCase(Some(e), acts), true, [kw] + e.tokens + bs;
      if !hadError {
        CaseIsScoped(c, CurrentScope());
        CaseIsWritten(kw, e, acts, bs);
        TookThen3(old(taken), t1, t2, taken, [kw], e.tokens, bs);
      }
      BranchRead(want, rest, CurrentScope(), isBuiltin, old(Upcoming()), old(hadError), kw, up1, up2, err2, true, e, Upcoming(), hadError, acts, ok, c);
    }

    method ParseDefaultBranch(ghost want: CasePart, ghost rest: seq<Token>) returns (c: SwitchCase, ghost ts: seq<Token>)
      requires Valid() && current.kind == DEFAULT
      modifies this`current, this`taken, this`hadError, this`locals, lexer
      ensures Valid() && Left() < old(Left()) && (old(hadError) ==> hadError) && locals == old(locals)
      ensures !hadError ==> CaseScoped(c, CurrentScope())
      ensures !hadError ==> Took(old(taken), taken, ts) && CaseWritten(c, ts)
      ensures CaseRead(want, rest, CurrentScope(), isBuiltin, old(Upcoming()), old(hadError), Upcoming(), hadError, true, c)
      decreases Left(), 20
    {
      hide *;
      var kw := Advance();
      ghost var up1, t1 := Upcoming(), taken;
      var acts;
      ghost var bs;
      acts, bs := ParseBraces(want.body, rest);
      c, ts := SwitchCase(None, acts), [kw] + bs;
      if !hadError {
        CaseIsScoped(c, CurrentScope());
        DefaultWritten(kw, acts, bs);
        TookThen(old(taken), t1, taken, [kw], bs);
      }
      DefaultRead(want, rest, CurrentScope(), isBuiltin, old(Upcoming()), old(hadError), kw, up1, Upcoming(), hadError, acts);
    }

    // ---- Assignments ----

    /** `{ field = value, ... }` */
    method ParseAssignmentBlock(ghost want: seq<Assignment>, ghost trailing: bool, ghost after: seq<Token>) returns (fs: seq<FieldAssignment>, ghost ts: seq<Token>)
      requires Valid()
      modifies this`current, this`taken, this`hadError, lexer
      ensures Valid() && Left() <= old(Left()) && (old(hadError) ==> hadError)
      ensures !hadError ==> AssignmentsScoped(fs, CurrentScope())
      ensures !hadError ==> Took(old(taken), taken, ts) && BlockWritten(fs, ts)
      ensures FieldBlockRead(want, trailing, after, CurrentScope(), isBuiltin, old(Upcoming()), old(hadError), Upcoming(), hadError, fs)
    {
      hide *;
      var rb;
      ghost var us, rest;
      var lb := Consume(LBRACE);
      ts := [lb];
      ghost var t1, up1, err1 := taken, Upcoming(), hadError;
      fs, us, rest := ParseFieldAssignments(want, trailing, [Word(RBRACE)] + after);
      if !hadError { TookThen(old(taken), t1, taken, ts, us + rest); }
      ghost var kind, up2, err2 := current.kind, Upcoming(), hadError;
      rb, ts := Take(RBRACE, old(taken), ts + (us + rest));
      if !hadError {
        assert kind == RBRACE;
        BlockIsWritten(lb, fs, us, rest, rb);
      }
      FieldBlockIsRead(want, trailing, after, CurrentScope(), isBuiltin, old(Upcoming()), old(hadError), lb, up1, err1, up2, err2, fs, rb, Upcoming(), hadError);
    }

    /** The assignments, and the comma that may follow the last one. */
    method ParseFieldAssignments(ghost want: seq<Assignment>, ghost trailing: bool, ghost after: seq<Token>) returns (fs: seq<FieldAssignment>, ghost ts: seq<Token>, ghost rest: seq<Token>)
      requires Valid()
      modifies this`current, this`taken, this`hadError, lexer
      ensures Valid() && Left() <= old(Left()) && (old(hadError) ==> hadError)
      ensures !hadError ==> AssignmentsScoped(fs, CurrentScope()) && Took(old(taken), taken, ts + rest)
      ensures !hadError && current.kind != DOT ==> FieldsWritten(fs, ts)
      ensures !hadError ==> rest == [] || (fs != [] && |rest| == 1 && rest[0].kind == COMMA)
      ensures AssignmentsRead(want, trailing, after, CurrentScope(), isBuiltin, old(Upcoming()), old(hadError), Upcoming(), hadError, fs)
    {
      hide *;
      UpcomingHead();
      fs, ts, rest := [], [], [];
      NoAssignments(CurrentScope());
      NothingWritten();
      TookNone(taken);
      if current.kind == RBRACE {
        NoAssignmentsRead(want, trailing, after, CurrentScope(), isBuiltin, Upcoming(), hadError);
        assert ts + rest == [];
        return;
      }
      var f;
      f, ts := ParseFieldAssignment(AssignmentAt(want, 0), AfterAssignment(want, trailing, 0, after));
      if !hadError {
        OneMoreAssignment(fs, f, CurrentScope());
        if current.kind != DOT { FirstField(f, ts); }
      }
      FirstAssignmentRead(want, trailing, after, CurrentScope(), isBuiltin, old(Upcoming()), old(hadError), Upcoming(), hadError, f);
      assert [] + [f] == [f];
      fs, ts, rest := ParseMoreAssignments([f], old(taken), ts, want, trailing, after, old(Upcoming()), old(hadError));
    }

    /** Assignments behind the first, each behind a comma, and the comma that may follow the last one. */
    method ParseMoreAssignments(fs0: seq<FieldAssignment>, ghost t0: seq<Token>, ghost ts0: seq<Token>, ghost want: seq<Assignment>, ghost trailing: bool, ghost after: seq<Token>,
                                ghost up0: seq<Token>, ghost err0: bool) returns (fs: seq<FieldAssignment>, ghost ts: seq<Token>, ghost rest: seq<Token>)
      requires Valid() && fs0 != []
      requires !hadError ==> Took(t0, taken, ts0) && AssignmentsScoped(fs0, CurrentScope()) && (current.kind != DOT ==> FieldsWritten(fs0, ts0))
      requires AssignmentsSoFar(want, trailing, after, CurrentScope(), isBuiltin, up0, err0, 1, Upcoming(), hadError, fs0)
      modifies this`current, this`taken, this`hadError, lexer
      ensures Valid() && Left() <= old(Left()) && (old(hadError) ==> hadError) && fs != []
      ensures !hadError ==> AssignmentsScoped(fs, CurrentScope()) && Took(t0, taken, ts + rest)
      ensures !hadError && current.kind != DOT ==> FieldsWritten(fs, ts)
      ensures rest == [] || (|rest| == 1 && rest[0].kind == COMMA)
      ensures AssignmentsRead(want, trailing, after, CurrentScope(), isBuiltin, up0, err0, Upcoming(), hadError, fs)
    {
      hide *;
      ghost var i := 1;
      fs, ts, rest := fs0, ts0, [];
      while current.kind == COMMA
        invariant Valid() && Left() <= old(Left()) && (old(hadError) ==> hadError) && fs != [] && rest == []
        invariant !hadError ==> Took(t0, taken, ts) && AssignmentsScoped(fs, CurrentScope()) && (current.kind != DOT ==> FieldsWritten(fs, ts))
        invariant AssignmentsSoFar(want, trailing, after, CurrentScope(), isBuiltin, up0, err0, i, Upcoming(), hadError, fs)
        decreases Left()
      {
        var comma;
        ghost var us, up1 := [], Upcoming();
        comma, us := Skip(t0, ts);
        UpcomingHead();
        if current.kind == RBRACE {
          rest := [comma];
          TrailingComma(want, trailing, after, CurrentScope(), isBuiltin, up0, err0, i, up1, hadError, fs, comma, Upcoming());
          return;
        }
        fs, ts := ParseAnother(fs, t0, ts, comma, want, trailing, after, up0, err0, i, up1);
        i := i + 1;
      }
      UpcomingHead();
      AssignmentsEnd(want, trailing, after, CurrentScope(), isBuiltin, up0, err0, i, Upcoming(), hadError, fs);
      assert ts + rest == ts;
    }

    /** One more assignment behind a comma. */
    method ParseAnother(fs0: seq<FieldAssignment>, ghost t0: seq<Token>, ghost ts0: seq<Token>, ghost comma: Token, ghost want: seq<Assignment>, ghost trailing: bool, ghost after: seq<Token>,
                        ghost up0: seq<Token>, ghost err0: bool, ghost i: nat, ghost up1: seq<Token>) returns (fs: seq<FieldAssignment>, ghost ts: seq<Token>)
      requires Valid() && current.kind != RBRACE && comma.kind == COMMA && up1 == [comma] + Upcoming() && fs0 != []
      requires !hadError ==> Took(t0, taken, ts0 + [comma]) && AssignmentsScoped(fs0, CurrentScope()) && FieldsWritten(fs0, ts0)
      requires AssignmentsSoFar(want, trailing, after, CurrentScope(), isBuiltin, up0, err0, i, up1, hadError, fs0)
      modifies this`current, this`taken, this`hadError, lexer
      ensures Valid() && Left() <= old(Left()) && (old(hadError) ==> hadError) && fs != []
      ensures !hadError ==> Took(t0, taken, ts) && AssignmentsScoped(fs, CurrentScope()) && (current.kind != DOT ==> FieldsWritten(fs, ts))
      ensures AssignmentsSoFar(want, trailing, after, CurrentScope(), isBuiltin, up0, err0, i + 1, Upcoming(), hadError, fs)
    {
      hide *;
      UpcomingHead();
      ghost var vs;
      var f;
      f, vs := ParseFieldAssignment(AssignmentAt(want, i), AfterAssignment(want, trailing, i, after));
      fs, ts := fs0 + [f], ts0 + [comma] + vs;
      if !hadError {
        OneMoreAssignment(fs0, f, CurrentScope());
        if current.kind != DOT { NextField(fs0, ts0, comma, f, vs); }
        TookThen(t0, old(taken), taken, ts0 + [comma], vs);
      }
      AssignmentsGoOn(want, trailing, after, CurrentScope(), isBuiltin, up0, err0, i, up1, old(hadError), fs0, comma, old(Upcoming()), Upcoming(), hadError, f);
    }

    method ParseFieldAssignment(ghost want: Assignment, ghost rest: seq<Token>) returns (f: FieldAssignment, ghost ts: seq<Token>)
      requires Valid()
      modifies this`current, this`taken, this`hadError, lexer
      ensures Valid() && Left() <= old(Left()) && (old(hadError) ==> hadError)
      ensures !hadError ==> ValueScoped(f.value, CurrentScope()) && Took(old(taken), taken, ts)
      ensures !hadError && current.kind != DOT ==> FieldWritten(f, ts)
      ensures AssignmentRead(want, rest, CurrentScope(), isBuiltin, old(Upcoming()), old(hadError), Upcoming(), hadError, f)
    {
      hide *;
      var eq, v;
      ghost var vs;
      var field := Consume(IDENTIFIER);
      ghost var up1, err1 := Upcoming(), hadError;
      ts := [field];
      eq, ts := Take(ASSIGN, old(taken), ts);
      ghost var t1, up2, err2 := taken, Upcoming(), hadError;
      v, vs := ParseValue(want.value, rest);
      f := FieldAssignment(field.text, v);
      if !hadError {
        if current.kind != DOT { FieldIsWritten(field, eq, v, vs); }
        TookThen(old(taken), t1, taken, ts, vs);
      }
      AssignmentIsRead(want, rest, CurrentScope(), isBuiltin, old(Upcoming()), old(hadError), field, up1, err1, eq, up2, err2, Upcoming(), hadError, v);
      ts := ts + vs;
    }

    /** The kind of the token behind the current one. */
    method PeekKind() returns (kind: Type)
      requires Valid() && current.kind != END
      modifies lexer
      ensures Valid() && Left() == old(Left()) && Upcoming() == old(Upcoming())
      ensures |Upcoming()| >= 1 && kind == if |Upcoming()| >= 2 then Upcoming()[1].kind else END
    {
      hide Lex, TokenOk, Next, Lexer.Valid, Lexer.Rest;
      SecondToken(current, lexer.Rest());
      var t := lexer.Peek();
      kind := t.kind;
    }

    /** Tokens taken since `t0` are the first that were to come then. */
    lemma TookFirst(t0: seq<Token>, up0: seq<Token>, ts: seq<Token>)
      requires Valid() && Took(t0, taken, ts) && t0 + up0 == Lex(lexer.input)
      ensures |ts| <= |up0| && up0 == ts + Upcoming()
    {
      hide Lex, TokenOk, Lexer.Valid, Lexer.Rest, Pending;
      assert t0 + (ts + Upcoming()) == t0 + up0;
      assert (t0 + up0)[|t0|..] == up0 && (t0 + (ts + Upcoming()))[|t0|..] == ts + Upcoming();
    }

    lemma WholeInput()
      requires Valid()
      ensures taken + Upcoming() == Lex(lexer.input)
    {
      hide Lex, TokenOk, Lexer.Valid, Lexer.Rest, Pending;
    }

    /** A value.  An upper-case name in front of a dot is no literal; if the dot is still to come, the
        text is not accepted. */
    method ParseValue(ghost want: ValueForm, ghost rest: seq<Token>) returns (v: Value, ghost ts: seq<Token>)
      requires Valid()
      modifies this`current, this`taken, this`hadError, lexer
      ensures Valid() && Left() <= old(Left()) && (old(hadError) ==> hadError)
      ensures !hadError ==> ValueScoped(v, CurrentScope()) && Took(old(taken), taken, ts)
      ensures !hadError && current.kind != DOT ==> ValueWritten(v, ts)
      ensures ValueRead(want, rest, CurrentScope(), isBuiltin, old(Upcoming()), old(hadError), Upcoming(), hadError, v)
    {
      hide *;
      UpcomingHead();
      LiteralsScoped(CurrentScope());
      var next := END;
      if current.kind == IDENTIFIER { next := PeekKind(); }
      if current.kind == IDENTIFIER && next == LPAREN && !isBuiltin(current.text) {
        hadError := true;
        UnknownRead(want, rest, CurrentScope(), isBuiltin, old(Upcoming()), old(hadError), Upcoming(), NoValue);
        return NoValue, [];
      }
      LiteralsWritten(current);
      ghost var cur := current;
      LiteralValues(cur);
      if current.kind == STRING || (current.kind == IDENTIFIER && next != DOT && UpperName(current.text)) {
        var t := Advance();
        v, ts := StringLiteral(t.text), [t];
      } else if current.kind == TRUE || current.kind == FALSE {
        var t := Advance();
        v, ts := BooleanLiteral(t.kind == TRUE), [t];
      } else if current.kind == INTEGER || current.kind == DOUBLE {
        var t := Advance();
        v, ts := NumberLiteral(t.text), [t];
      } else {
        v, ts := ParseExpressionValue(next, want, rest);
        return;
      }
      LiteralRead(want, rest, CurrentScope(), isBuiltin, old(Upcoming()), old(hadError), cur, next, Upcoming(), v);
    }

    method ParseExpressionValue(ghost next: Type, ghost want: ValueForm, ghost rest: seq<Token>) returns (v: Value, ghost ts: seq<Token>)
      requires Valid() && current.kind !in {STRING, TRUE, FALSE, INTEGER, DOUBLE}
      requires current.kind == IDENTIFIER ==> next == (if |Upcoming()| >= 2 then Upcoming()[1].kind else END) && (next == LPAREN ==> isBuiltin(current.text))
      requires current.kind == IDENTIFIER && UpperName(current.text) ==> next == DOT
      modifies this`current, this`taken, this`hadError, lexer
      ensures Valid() && Left() <= old(Left()) && (old(hadError) ==> hadError)
      ensures !hadError ==> ValueScoped(v, CurrentScope()) && Took(old(taken), taken, ts)
      ensures !hadError && current.kind != DOT ==> ValueWritten(v, ts)
      ensures ValueRead(want, rest, CurrentScope(), isBuiltin, old(Upcoming()), old(hadError), Upcoming(), hadError, v)
    {
      hide *;
      UpcomingHead();
      WholeInput();
      ghost var up0, cur, w := Upcoming(), current, ExprOf(want);
      var e;
      e, ts, w := ParseExpression(ExprOf(want), rest);
      ghost var err := hadError;
      v := ClassifyValue(e);
      TookFirst(old(taken), up0, ts);
      UpcomingHead();
      TakenOk();
      if !err && current.kind != DOT {
        TreeParsed(w, e, ts, old(taken), taken);
        StartIs(w, e, cur, up0, ts, Upcoming(), current.kind);
        ExpressionsWritten(e, ts);
      }
      ComputedRead(want, rest, CurrentScope(), isBuiltin, up0, old(hadError), cur, next, Upcoming(), err, e, v, hadError);
    }

    /** A text that starts with `$` and holds none of the listed operators is taken as a reference. */
    method ClassifyValue(e: string) returns (v: Value)
      modifies this`hadError
      ensures !hadError ==> ValueScoped(v, CurrentScope())
      ensures v == if IsReferenceText(e) then VarRef(e) else Expression(e)
      ensures hadError == (old(hadError) || if IsReferenceText(e) then Base(e) !in Sources(CurrentScope()) else e == "" || !RefsOk(e, Sources(CurrentScope())))
    {
      if e != "" && e[0] == '$' && !HasOperatorChar(e) {
        var ok := CheckReference(e);
        v := VarRef(e);
      } else {
        var compiled := CheckExpression(e);
        v := Expression(e);
      }
    }

    // ---- The whole text ----

    /** `parse`: without an error all tokens of the input were consumed and every action is well
        scoped under the bindings of the rule's conditions.  The program `want`, if that is what the
        input holds, is accepted exactly if it is good. */
    method Parse(ghost want: seq<Statement>) returns (acts: seq<Action>)
      requires Valid() && locals == {} && !hadError
      modifies this`current, this`taken, this`hadError, this`locals, lexer
      ensures Valid() && locals == {}
      ensures hadError ==> acts == []
      ensures !hadError ==> AllScoped(acts, Scope(bindings, globals)) && taken == Lex(lexer.input)
      ensures !hadError && old(taken) == [] ==> WritesAll(acts, taken)
      ensures IsProgram(want, old(Upcoming())) ==>
        (hadError <==> !GoodAll(want, Scope(bindings, globals), isBuiltin)) && (!hadError ==> acts == ActionsOf(want))
    {
      hide *;
      acts := [];
      ghost var sc, ts, i := CurrentScope(), [], 0;
      StartScope();
      NothingScoped(sc);
      NothingWritten();
      TookNone(taken);
      ProgramStart(want, [], sc, isBuiltin, Upcoming(), hadError);
      while current.kind != END && !hadError
        invariant Valid() && locals == {} && CurrentScope() == sc
        invariant !hadError ==> AllScoped(acts, sc)
        invariant !hadError ==> Took(old(taken), taken, ts) && WritesAll(acts, ts)
        invariant ProgramSoFar(want, [], sc, isBuiltin, old(Upcoming()), old(hadError), i, Upcoming(), hadError, acts)
        decreases Left(), !hadError
      {
        UpcomingHead();
        ghost var up1, err1, t1, us := Upcoming(), hadError, taken, [];
        var a;
        a, us := ParseAction(StatementAt(want, i), AfterStatement(want, i, []));
        if !hadError {
          OneMoreScoped(acts, a, sc);
          OneMoreWritten(acts, ts, a, us);
          TookThen(old(taken), t1, taken, ts, us);
        }
        ProgramGoesOn(want, [], sc, isBuiltin, old(Upcoming()), old(hadError), i, up1, err1, acts, Upcoming(), hadError, a);
        acts, ts, i := acts + [a], ts + us, i + 1;
      }
      UpcomingHead();
      ProgramEnds(want, [], sc, isBuiltin, old(Upcoming()), old(hadError), i, Upcoming(), hadError, acts);
      WholeProgram(want, sc, isBuiltin, old(Upcoming()), Upcoming(), hadError, acts);
      if hadError {
        acts := [];
      } else {
        AllTaken();
        if old(taken) == [] { TookAll(taken, ts); }
      }
    }

    lemma StartScope()
      requires locals == {}
      ensures CurrentScope() == Scope(bindings, globals) && Sources(CurrentScope()) == bindings + globals
    {
    }

    lemma AllUpcoming()
      requires Valid() && taken == []
      ensures Upcoming() == Lex(lexer.input)
    {
      hide Lex, TokenOk, Lexer.Valid, Lexer.Rest, Pending;
    }

    lemma TakenIsPrefix()
      requires Valid()
      ensures taken <= Lex(lexer.input)
    {
      hide Lex, TokenOk, Lexer.Valid, Lexer.Rest, Pending;
    }

    lemma AllTaken()
      requires Valid() && current.kind == END
      ensures taken == Lex(lexer.input)
    {
      hide Lex, TokenOk, Lexer.Valid, Lexer.Rest;
    }
  }

  /** The program, if that is what the code is, is accepted exactly if it is good, and gives its actions. */
  method ParseGiven(code: string, bindings: set<string>, globals: set<string>, isBuiltin: string -> bool, ghost want: seq<Statement>) returns (acts: seq<Action>, ok: bool)
    ensures ok ==> AllScoped(acts, Scope(bindings, globals)) && WritesAll(acts, Lex(code))
    ensures !ok ==> acts == []
    ensures IsProgram(want, Lex(code)) ==> (ok <==> GoodAll(want, Scope(bindings, globals), isBuiltin)) && (ok ==> acts == ActionsOf(want))
  {
    hide *;
    var parser := new Parser(code, bindings, globals, isBuiltin);
    parser.AllUpcoming();
    acts := parser.Parse(want);
    ok := !parser.hadError;
  }

  /** The tokens are those of the program. */
  predicate IsProgram(p: seq<Statement>, ts: seq<Token>) { ProperAll(p) && ProgramTokens(p) == ts }

  /** A good program with these tokens. */
  ghost predicate IsGood(p: seq<Statement>, ts: seq<Token>, sc: Scope, known: string -> bool) { IsProgram(p, ts) && GoodAll(p, sc, known) }

  /** Right-hand side code into actions: the code is accepted exactly if it is a good program of the
      grammar, and the actions are those of such a program. */
  method ParseRhs(code: string, bindings: set<string>, globals: set<string>, isBuiltin: string -> bool) returns (acts: seq<Action>, ok: bool)
    ensures ok <==> exists p: seq<Statement> :: IsGood(p, Lex(code), Scope(bindings, globals), isBuiltin)
    ensures ok ==> exists p: seq<Statement> :: IsGood(p, Lex(code), Scope(bindings, globals), isBuiltin) && acts == ActionsOf(p)
    ensures ok ==> AllScoped(acts, Scope(bindings, globals)) && WritesAll(acts, Lex(code))
    ensures !ok ==> acts == []
  {
    hide Lex, AllScoped, WritesAll, ActionsOf, GoodAll, IsProgram;
    ghost var sc, want := Scope(bindings, globals), [];
    if q: seq<Statement> :| IsGood(q, Lex(code), sc, isBuiltin) {
      want := q;
    } else if q: seq<Statement> :| IsProgram(q, Lex(code)) {
      want := q;
    }
    acts, ok := ParseGiven(code, bindings, globals, isBuiltin, want);
    if ok {
      ghost var p := AcceptedProgram(acts, code);
      assert IsGood(want, Lex(code), sc, isBuiltin);
    }
  }

  lemma IsItsProgram(p: seq<Statement>, ts: seq<Token>)
    requires ProperAll(p) && ProgramTokens(p) == ts
    ensures IsProgram(p, ts)
  {
    hide Proper, ProgramTokens;
  }

  lemma AcceptedProgram(acts: seq<Action>, code: string) returns (p: seq<Statement>)
    requires WritesAll(acts, Lex(code))
    ensures IsProgram(p, Lex(code))
  {
    LexedWritable(code);
    hide Lex, Writable, WritesAll, Proper, ProgramTokens;
    p := ProgramTree(acts, Lex(code));
  }

  /** A program that is written out is read back. */
  method ReadWritten(p: seq<Statement>, bindings: set<string>, globals: set<string>, isBuiltin: string -> bool) returns (acts: seq<Action>, ok: bool)
    requires ProperAll(p) && forall i :: 0 <= i < |ProgramTokens(p)| ==> Writable(ProgramTokens(p)[i])
    ensures ok <==> GoodAll(p, Scope(bindings, globals), isBuiltin)
    ensures ok ==> acts == ActionsOf(p)
  {
    hide *;
    WrittenLexesBack(ProgramTokens(p));
    IsItsProgram(p, Lex(WrittenAll(ProgramTokens(p))));
    acts, ok := ParseGiven(WrittenAll(ProgramTokens(p)), bindings, globals, isBuiltin, p);
  }

  /** `update $x { field = $a op $b }` */
  function AssignPair(x: string, field: string, a: string, level: nat, op: Type, b: string): seq<Statement> {
    [UpdateOf(x, [Assign(field, Pair(a, level, op, b))], false)]
  }

  lemma AssignPairTokens(x: string, field: string, a: string, level: nat, op: Type, b: string)
    requires OperatorAt(level, op)
    ensures ProgramTokens(AssignPair(x, field, a, level, op, b)) ==
      [Word(UPDATE), Var(x), Word(LBRACE), Token(IDENTIFIER, field), Word(ASSIGN), Var(a), Word(op), Var(b), Word(RBRACE)]
  {
    var v := Pair(a, level, op, b);
    PairIs(a, level, op, b);
    PairKind(a, level, op, b);
    assert ValueTokens(v) == [Var(a), Word(op), Var(b)];
    hide Pair, Word, Var, ExprTokens, ExprText, Full, OperatorAt, ValueTokens;
    OneAssignmentTokens(Assign(field, v));
    OneStatement(UpdateOf(x, [Assign(field, v)], false));
  }

  lemma OneAssignmentTokens(w: Assignment)
    ensures FieldBlock([w], false) == [Word(LBRACE), Token(IDENTIFIER, w.field), Word(ASSIGN)] + ValueTokens(w.value) + [Word(RBRACE)]
  {
    hide Word, ValueTokens;
    assert [w][1..] == [] && MoreAssignments([]) == [];
    assert AssignmentsTokens([w]) == AssignmentTokens(w);
  }

  lemma OneStatement(s: Statement)
    ensures ProgramTokens([s]) == StatementTokens(s)
  {
    hide StatementTokens;
    assert [s][1..] == [] && ProgramTokens([]) == [];
  }

  lemma AssignPairIs(x: string, field: string, a: string, level: nat, op: Type, b: string, sc: Scope, known: string -> bool)
    requires OperatorAt(level, op)
    ensures ProperValue(Pair(a, level, op, b)) ==> ProperAll(AssignPair(x, field, a, level, op, b))
    ensures x in sc.facts ==> (GoodAll(AssignPair(x, field, a, level, op, b), sc, known) <==> GoodValue(Pair(a, level, op, b), sc, known))
  {
    hide Pair, ProperValue, GoodValue;
    var s := AssignPair(x, field, a, level, op, b)[0];
    assert s.fields[0].value == Pair(a, level, op, b);
    assert GoodFields(s.fields, sc, known) <==> GoodValue(s.fields[0].value, sc, known);
    OneGood(s, sc, known);
  }

  lemma AssignPairWritable(x: string, field: string, a: string, op: Type, b: string)
    requires IsVariableName(x) && Writable(Token(IDENTIFIER, field)) && IsVariableName(a) && IsVariableName(b) && IsFixed(op)
    ensures var ts := [Word(UPDATE), Var(x), Word(LBRACE), Token(IDENTIFIER, field), Word(ASSIGN), Var(a), Word(op), Var(b), Word(RBRACE)];
      forall i :: 0 <= i < |ts| ==> Writable(ts[i])
  {
    hide Spelling;
  }

  /** The assignment is accepted iff the operator is none of `%`, `^`, `&&` and `||`. */
  method AcceptsOperator(x: string, field: string, a: string, level: nat, op: Type, b: string, bindings: set<string>, globals: set<string>, isBuiltin: string -> bool) returns (ok: bool)
    requires IsVariableName(x) && Writable(Token(IDENTIFIER, field)) && IsVariableName(a) && IsVariableName(b) && OperatorAt(level, op)
    requires x in bindings && a in bindings + globals && b in bindings + globals && forall y :: y in bindings + globals ==> IsVariableName(y)
    ensures ok <==> op !in {MOD, CARET, AND, OR}
  {
    OperatorTable(level, op);
    assert IsFixed(op);
    hide *;
    ghost var sc := Scope(bindings, globals);
    SourcesOf(bindings, globals);
    OperatorAccepted(a, level, op, b, sc, isBuiltin);
    AssignPairTokens(x, field, a, level, op, b);
    AssignPairIs(x, field, a, level, op, b, sc, isBuiltin);
    AssignPairWritable(x, field, a, op, b);
    var acts;
    acts, ok := ReadWritten(AssignPair(x, field, a, level, op, b), bindings, globals, isBuiltin);
  }

  // ---- The shortest programs with a condition ----

  function IfHalt(e: Expr): seq<Statement> { [IfThen(e, [HaltNow], NoElse)] }

  /** What the shortest program with a given variable or string as its condition is. */
  lemma IfHaltIs(e: Expr, t: Token, sc: Scope, known: string -> bool)
    requires (e == Name(t, []) && t.kind == VARIABLE) || (e == Text(t.text) && t.kind == STRING)
    ensures ProgramTokens(IfHalt(e)) == [Word(IF), t, Word(LBRACE), Word(HALT), Word(RBRACE)]
    ensures ProperAll(IfHalt(e))
    ensures GoodAll(IfHalt(e), sc, known) <==> RefsOk(AtomText(t), Sources(sc))
  {
    hide RefsOk, Spelling;
    var halt: seq<Statement> := [HaltNow];
    assert ProgramTokens(halt) == [Word(HALT)] by { assert halt[1..] == []; }
    assert ExprTokens(e) == [t] && ExprText(e) == AtomText(t) by { if t.kind == STRING { assert t == Token(STRING, t.text); } }
    var s := IfHalt(e)[0];
    assert IfHalt(e)[1..] == [] && ProgramTokens([]) == [];
    assert StatementTokens(s) == [Word(IF), t, Word(LBRACE), Word(HALT), Word(RBRACE)];
    assert Full(e) && At(e, 0);
    assert forall i :: 0 <= i < |halt| ==> Proper(halt[i]);
    assert Proper(s);
    assert forall i :: 0 <= i < |IfHalt(e)| ==> IfHalt(e)[i] == s;
    assert GoodAll(halt, sc, known);
    assert Good(s, sc, known) <==> RefsOk(AtomText(t), Sources(sc));
    OneGood(s, sc, known);
  }

  lemma OneGood(s: Statement, sc: Scope, known: string -> bool)
    ensures GoodAll([s], sc, known) <==> Good(s, sc, known)
  {
    assert [s][0] == s;
    hide Good;
  }

  /** `if $name { halt }` is accepted exactly if the variable is declared, or is a lone `$`. */
  method ParseIfHalt(code: string, name: string, bindings: set<string>, globals: set<string>, isBuiltin: string -> bool) returns (ok: bool)
    requires Lex(code) == [Word(IF), Var(name), Word(LBRACE), Word(HALT), Word(RBRACE)]
    ensures ok <==> name == "$" || name in bindings + globals
  {
    LexOk(code);
    hide *;
    var acts;
    VariableToken(name);
    IfHaltIs(Name(Var(name), []), Var(name), Scope(bindings, globals), isBuiltin);
    IsItsProgram(IfHalt(Name(Var(name), [])), Lex(code));
    acts, ok := ParseGiven(code, bindings, globals, isBuiltin, IfHalt(Name(Var(name), [])));
    AtomTexts(Var(name));
    assert TokenOk(Lex(code)[1]);
    SourcesOf(bindings, globals);
    VariablePasses(Var(name), bindings + globals);
  }

  lemma SourcesOf(bindings: set<string>, globals: set<string>)
    ensures Sources(Scope(bindings, globals)) == bindings + globals
  {
  }

  lemma VariableToken(name: string)
    ensures Var(name).kind == VARIABLE && Var(name).text == name
  {
  }

  lemma AtomTexts(t: Token)
    ensures t.kind == VARIABLE ==> AtomText(t) == t.text
    ensures t.kind == STRING ==> AtomText(t) == Quoted(t.text)
  {
  }

  /** With nothing declared, a condition that is a lone `$` is accepted. */
  method LoneDollarExample() returns (ok: bool)
    ensures ok
  {
    LoneDollarTokens();
    hide Lex;
    assert Lex("if $ { halt }") == [Word(IF), Var("$"), Word(LBRACE), Word(HALT), Word(RBRACE)];
    hide *;
    ok := ParseIfHalt("if $ { halt }", "$", {}, {}, _ => true);
  }

  /** A string that holds a variable's name is checked like the variable. */
  method StringExample(declared: bool) returns (ok: bool)
    ensures ok <==> declared
  {
    StringTokens();
    hide Lex;
    assert Lex("if \"$x\" { halt }") == [Word(IF), Token(STRING, "$x"), Word(LBRACE), Word(HALT), Word(RBRACE)];
    hide *;
    var acts;
    var bindings: set<string> := if declared then {"$x"} else {};
    IfHaltIs(Text("$x"), Token(STRING, "$x"), Scope(bindings, {}), _ => true);
    IsItsProgram(IfHalt(Text("$x")), Lex("if \"$x\" { halt }"));
    acts, ok := ParseGiven("if \"$x\" { halt }", bindings, {}, _ => true, IfHalt(Text("$x")));
    AtomTexts(Token(STRING, "$x"));
    SourcesOf(bindings, {});
    QuotedPasses(bindings);
  }

  lemma QuotedPasses(available: set<string>)
    ensures RefsOk(Quoted("$x"), available + {}) <==> "$x" in available
  {
    assert available + {} == available;
    QuotedVariablePasses("$x", available);
  }

  /** One expression at the start of a text: what is emitted is the text of the tree that was read, and
      lexing it gives back the tokens, up to the renamed functions.  A whole expression is accepted. */
  method EmitExpression(code: string, ghost want: Expr) returns (e: string, ok: bool, ts: seq<Token>)
    ensures ts <= Lex(code)
    ensures ok ==> Parsed(e, ts)
    ensures ok && Clean(ts) ==> Lex(e) == Renamed(ts)
    ensures ok ==> Mentions(e, ts)
    ensures Full(want) && Lex(code) == ExprTokens(want) ==> ok && e == ExprText(want) && ts == Lex(code)
  {
    hide *;
    ghost var w := want;
    var parser := new Parser(code, {}, {}, _ => true);
    parser.AllUpcoming();
    parser.WholeInput();
    ghost var up0 := parser.Upcoming();
    e, ts, w := parser.ParseExpression(want, []);
    ok := !parser.hadError;
    parser.TakenIsPrefix();
    parser.TakenOk();
    parser.TookFirst([], up0, ts);
    TookAll(parser.taken, ts);
    if ok {
      TreeParsed(w, e, ts, [], parser.taken);
      Emitted(e, ts);
    }
    WholeExpression(want, up0, parser.Upcoming(), parser.hadError, e);
  }

  lemma WholeExpression(want: Expr, up0: seq<Token>, up1: seq<Token>, err1: bool, e: string)
    requires Reads(want, [], -1, up0, false, up1, err1, e)
    ensures Full(want) && up0 == ExprTokens(want) ==> !err1 && up1 == [] && e == ExprText(want)
  {
    hide ExprTokens, ExprText, Full;
    assert ExprTokens(want) + [] == ExprTokens(want);
  }

  lemma Emitted(e: string, ts: seq<Token>)
    requires Parsed(e, ts)
    ensures Mentions(e, ts) && (Clean(ts) ==> Lex(e) == Renamed(ts))
  {
    hide Emits, Mentions, Clean;
    if Clean(ts) { EmittedLexesBack(e, ts); }
  }

  lemma TookAll(b: seq<Token>, ts: seq<Token>)
    requires Took([], b, ts)
    ensures b == ts
  {
  }

  predicate HasOperatorChar(s: string) { exists k :: 0 <= k < |s| && s[k] in "+-*/><!=" }

  /** How the tokens of an expression start, unless a dot is left over. */
  lemma StartIs(w: Expr, e: string, cur: Token, up0: seq<Token>, ts: seq<Token>, up1: seq<Token>, kind: Type)
    requires IsTree(w, -1, e, ts)
    requires cur.kind !in {STRING, TRUE, FALSE, INTEGER, DOUBLE} && up0 == ts + up1 && (up0 != [] ==> up0[0] == cur) && (up1 != [] ==> up1[0].kind == kind)
    requires cur.kind == IDENTIFIER && UpperName(cur.text) ==> |up0| >= 2 && up0[1].kind == DOT
    requires kind != DOT
    ensures StartsComputed(ts)
  {
    ExpressionHead(w, -1);
    hide UpperName, ExprTokens, ExprText, Full;
    assert up0[0] == ts[0] && (|ts| >= 2 ==> up0[1] == ts[1]) && (|ts| == 1 && up1 != [] ==> up0[1] == up1[0]);
  }

  lemma TreeParsed(w: Expr, e: string, ts: seq<Token>, before: seq<Token>, after: seq<Token>)
    requires IsTree(w, -1, e, ts) && Took(before, after, ts) && forall k :: 0 <= k < |after| ==> TokenOk(after[k])
    ensures Parsed(e, ts)
  {
    hide TokenOk, ExprTokens, ExprText, Full, Parsed;
    forall k | 0 <= k < |ts| ensures TokenOk(ts[k]) { assert ts[k] == after[|before| + k]; }
    IsParsed(w, e, ts);
  }

  lemma ConditionIsWritten(c: Condition)
    requires Parsed(c.text, c.tokens)
    ensures ConditionWritten(c, c.tokens)
  {
    hide Parsed;
  }

  lemma ConditionIsScoped(c: Condition, before: seq<Token>, after: seq<Token>, sc: Scope)
    requires Took(before, after, c.tokens) && Parsed(c.text, c.tokens) && RefsOk(c.text, Sources(sc))
    requires forall k :: 0 <= k < |after| ==> TokenOk(after[k])
    ensures ConditionScoped(c, sc)
  {
    hide Emits, Mentions, TokenOk, RefsOk, InScope;
    forall k | 0 <= k < |c.tokens| ensures TokenOk(c.tokens[k]) { assert c.tokens[k] == after[|before| + k]; }
    MentionsChecked(c.text, c.tokens, Sources(sc));
  }

  /** All tokens the lexer returns are of the shapes it can return. */
  lemma {:induction false} LexOk(s: string)
    ensures forall k :: 0 <= k < |Lex(s)| ==> TokenOk(Lex(s)[k])
    decreases |s|
  {
    hide TokenOk, Next;
    NextOk(s);
    NextShrinks(s);
    if Next(s).token.kind != END { LexOk(Next(s).rest); }
  }


  lemma AfterError(p: seq<Statement>, rest: seq<Token>, sc: Scope, known: string -> bool, up0: seq<Token>, up1: seq<Token>, err1: bool, acts: seq<Action>)
    ensures ProgramRead(p, rest, sc, known, up0, true, up1, err1, acts)
  {
  }

  lemma InnerIs(sc: Scope, x: string)
    ensures InnerScope(sc, x) == sc.(facts := sc.facts + {x})
  {
  }

  lemma CasesGiveUp(cs: seq<CasePart>, rest: seq<Token>, sc: Scope, known: string -> bool, up0: seq<Token>, err0: bool, up1: seq<Token>, err1: bool, rs: seq<SwitchCase>)
    requires !CasesAhead(cs, rest, up0, err0)
    ensures CasesRead(cs, rest, sc, known, up0, err0, up1, err1, false, rs)
  {
  }

  lemma LiteralValues(t: Token)
    ensures t.kind == STRING || t.kind == IDENTIFIER ==> ValueOf(Plain(t)) == StringLiteral(t.text)
    ensures t.kind == TRUE || t.kind == FALSE ==> ValueOf(Plain(t)) == BooleanLiteral(t.kind == TRUE)
    ensures t.kind == INTEGER || t.kind == DOUBLE ==> ValueOf(Plain(t)) == NumberLiteral(t.text)
  {
  }

  lemma WholeProgram(p: seq<Statement>, sc: Scope, known: string -> bool, up0: seq<Token>, up1: seq<Token>, err1: bool, acts: seq<Action>)
    requires ProgramRead(p, [], sc, known, up0, false, up1, err1, acts)
    ensures IsProgram(p, up0) ==> (err1 <==> !GoodAll(p, sc, known)) && (!err1 ==> acts == ActionsOf(p))
  {
    hide ProgramTokens, ProperAll, GoodAll, ActionsOf;
    assert ProgramTokens(p) + [] == ProgramTokens(p);
  }

  lemma VariableNamed(t: Token)
    requires TokenOk(t)
    ensures t.kind == VARIABLE ==> t.text != ""
  {
  }

  lemma Takes(kind: Type, up0: seq<Token>, err0: bool, t: Token, up1: seq<Token>)
    requires up0 == [t] + up1
    ensures TakesKind(kind, up0, err0, t, up1, err0)
  {
  }

  lemma TakesNot(kind: Type, up0: seq<Token>, err0: bool, t: Token, up1: seq<Token>)
    requires up0 == [] || up0[0].kind != kind
    ensures TakesKind(kind, up0, err0, t, up1, true)
  {
  }
}
