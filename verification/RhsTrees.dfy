/** What is written is in the grammar: tokens that write an action are those of a statement that
    compiles to it. */
module RhsTrees {
  import opened Wrappers
  import opened RhsLexer
  import opened RhsPrint
  import opened RhsGrammar
  import opened RhsReading
  import opened RhsActions
  import opened RhsStatements
  import opened RhsValues

  /** Tokens as the lexer returns them. */
  ghost predicate Spelled(ts: seq<Token>) { forall k :: 0 <= k < |ts| && ts[k].kind != ERROR ==> Writable(ts[k]) }

  lemma SpelledPart(ts: seq<Token>, i: nat, j: nat)
    requires Spelled(ts) && i <= j <= |ts|
    ensures Spelled(ts[i..j]) && Spelled(ts[i..]) && Spelled(ts[..j])
  {
    hide Writable;
  }

  /** A keyword or symbol is spelled as its kind says. */
  lemma FixedIs(ts: seq<Token>, k: nat, kind: Type)
    requires Spelled(ts) && k < |ts| && ts[k].kind == kind
    requires kind in {UPDATE, INSERT, INSERT_LOGICAL, RETRACT, HALT, SET_FOCUS, IF, ELSE, FOR, IN, WHILE, SWITCH, CASE, DEFAULT, BREAK, CONTINUE, LBRACE, RBRACE, LPAREN, RPAREN, COMMA, DOT, ASSIGN}
    ensures ts[k] == Word(kind)
  {
    hide Spelling;
  }

  // ---- Sequences in pieces ----

  lemma Cut(ts: seq<Token>, n: nat)
    requires 1 <= n <= |ts|
    ensures ts == [ts[0]] + (ts[1..n] + ts[n..])
  {
  }

  lemma Cut3(ts: seq<Token>, n: nat, i: nat)
    requires 1 <= n <= i <= |ts|
    ensures ts == [ts[0]] + (ts[1..n] + (ts[n..i] + ts[i..]))
  {
    Cut(ts, n);
    assert ts[n..] == ts[n..i] + ts[i..];
  }

  lemma CutAround(ts: seq<Token>)
    requires |ts| >= 2
    ensures ts == [ts[0]] + (ts[1..|ts| - 1] + [ts[|ts| - 1]])
  {
  }

  lemma CutHead(ts: seq<Token>)
    requires ts != []
    ensures ts == [ts[0]] + ts[1..]
  {
  }

  lemma CutTwo(ts: seq<Token>)
    requires |ts| >= 2
    ensures ts == [ts[0]] + ([ts[1]] + ts[2..])
  {
  }

  lemma CutThree(ts: seq<Token>, n: nat)
    requires 3 <= n <= |ts|
    ensures ts == [ts[0]] + ([ts[1]] + ([ts[2]] + (ts[3..n] + ts[n..])))
  {
    CutTwo(ts);
    assert ts[2..] == [ts[2]] + ts[3..];
    assert ts[3..] == ts[3..n] + ts[n..];
  }

  lemma CutMiddle<T>(ts: seq<T>, i: nat)
    requires i < |ts|
    ensures ts == ts[..i] + ([ts[i]] + ts[i + 1..])
  {
  }

  lemma CutLast<T>(xs: seq<T>)
    requires xs != []
    ensures xs == xs[..|xs| - 1] + [xs[|xs| - 1]]
  {
  }

  // ---- Values and assignments ----

  lemma ValueTree(v: Value, ts: seq<Token>) returns (w: ValueForm)
    requires ValueWritten(v, ts)
    ensures ProperValue(w) && ValueTokens(w) == ts && ValueOf(w) == v
  {
    hide IsReferenceText, StartsComputed, ExprTokens, ExprText, Full, UpperName, StandsFor;
    if v.VarRef? || v.Expression? {
      var text := if v.VarRef? then v.ref else v.text;
      var e: Expr :| IsTree(e, -1, text, ts);
      w := Computed(e);
    } else {
      w := Plain(ts[0]);
      assert ts == [ts[0]];
    }
  }

  lemma FieldShape(f: FieldAssignment, ts: seq<Token>)
    requires FieldWritten(f, ts)
    ensures |ts| >= 2 && ts[0] == Token(IDENTIFIER, f.field) && ts[1].kind == ASSIGN && ValueWritten(f.value, ts[2..])
  {
    hide ValueWritten;
  }

  lemma AssignmentIs(w: Assignment)
    ensures AssignmentTokens(w) == [Token(IDENTIFIER, w.field)] + ([Word(ASSIGN)] + ValueTokens(w.value)) && AssignmentOf(w) == FieldAssignment(w.field, ValueOf(w.value))
  {
    hide ValueTokens, ValueOf, Word;
  }

  lemma AssignmentTree(f: FieldAssignment, ts: seq<Token>) returns (w: Assignment)
    requires FieldWritten(f, ts) && Spelled(ts)
    ensures ProperValue(w.value) && AssignmentTokens(w) == ts && AssignmentOf(w) == f
  {
    FieldShape(f, ts);
    hide *;
    FixedIs(ts, 1, ASSIGN);
    var v := ValueTree(f.value, ts[2..]);
    w := Assign(f.field, v);
    CutTwo(ts);
    AssignmentIs(w);
  }

  lemma {:induction false} MoreAssignmentsAppend(ws: seq<Assignment>, w: Assignment)
    ensures MoreAssignments(ws + [w]) == MoreAssignments(ws) + ([Word(COMMA)] + AssignmentTokens(w))
    decreases |ws|
  {
    hide AssignmentTokens, Spelling;
    if ws == [] {
      assert [] + [w] == [w] && [w][1..] == [] && MoreAssignments([]) == [];
    } else {
      assert (ws + [w])[1..] == ws[1..] + [w] && (ws + [w])[0] == ws[0];
      MoreAssignmentsAppend(ws[1..], w);
    }
  }

  lemma AssignmentsAppend(ws: seq<Assignment>, w: Assignment)
    requires ws != []
    ensures AssignmentsTokens(ws + [w]) == AssignmentsTokens(ws) + ([Word(COMMA)] + AssignmentTokens(w))
  {
    hide AssignmentTokens, Spelling;
    assert (ws + [w])[1..] == ws[1..] + [w] && (ws + [w])[0] == ws[0];
    MoreAssignmentsAppend(ws[1..], w);
  }

  lemma {:induction false} AssignmentsOfAppend(ws: seq<Assignment>, w: Assignment)
    ensures AssignmentsOf(ws + [w]) == AssignmentsOf(ws) + [AssignmentOf(w)]
    decreases |ws|
  {
    hide ValueOf;
    if ws == [] {
      assert [] + [w] == [w] && [w][1..] == [] && AssignmentsOf([]) == [];
    } else {
      assert (ws + [w])[1..] == ws[1..] + [w] && (ws + [w])[0] == ws[0];
      AssignmentsOfAppend(ws[1..], w);
    }
  }

  lemma NoFields(ts: seq<Token>)
    requires FieldsWritten([], ts)
    ensures ts == [] && AssignmentsTokens([]) == [] && AssignmentsOf([]) == [] && ProperFields([])
  {
  }

  lemma OneField(fs: seq<FieldAssignment>, ts: seq<Token>)
    requires FieldsWritten(fs, ts) && |fs| == 1
    ensures FieldWritten(fs[0], ts) && fs == [fs[0]]
  {
  }

  lemma OneAssignment(w: Assignment)
    ensures AssignmentsTokens([w]) == AssignmentTokens(w) && AssignmentsOf([w]) == [AssignmentOf(w)] && (ProperValue(w.value) ==> ProperFields([w]))
  {
    hide AssignmentTokens, ValueOf, ProperValue, Spelling;
    assert [w][1..] == [] && MoreAssignments([]) == [] && AssignmentsOf([]) == [];
  }

  lemma LastField(fs: seq<FieldAssignment>, ts: seq<Token>) returns (i: nat)
    requires FieldsWritten(fs, ts) && |fs| > 1
    ensures i < |ts| && FieldsWritten(fs[..|fs| - 1], ts[..i]) && ts[i].kind == COMMA && FieldWritten(fs[|fs| - 1], ts[i + 1..])
  {
    hide FieldWritten;
    i :| FieldsSplit(fs, ts, i);
  }

  lemma ProperAppend(ws: seq<Assignment>, w: Assignment)
    requires ProperFields(ws) && ProperValue(w.value)
    ensures ProperFields(ws + [w])
  {
    hide ProperValue;
  }

  lemma {:induction false} AssignmentsTree(fs: seq<FieldAssignment>, ts: seq<Token>) returns (ws: seq<Assignment>)
    requires FieldsWritten(fs, ts) && Spelled(ts)
    ensures ProperFields(ws) && AssignmentsTokens(ws) == ts && AssignmentsOf(ws) == fs && (ws == [] <==> fs == [])
    decreases |fs|
  {
    hide *;
    if fs == [] {
      ws := [];
      NoFields(ts);
    } else if |fs| == 1 {
      OneField(fs, ts);
      var w := AssignmentTree(fs[0], ts);
      ws := [w];
      OneAssignment(w);
    } else {
      var i := LastField(fs, ts);
      var n := |fs| - 1;
      SpelledPart(ts, 0, i);
      SpelledPart(ts, i + 1, |ts|);
      FixedIs(ts, i, COMMA);
      var before := AssignmentsTree(fs[..n], ts[..i]);
      var w := AssignmentTree(fs[n], ts[i + 1..]);
      ws := before + [w];
      AssignmentsAppend(before, w);
      AssignmentsOfAppend(before, w);
      ProperAppend(before, w);
      CutMiddle(ts, i);
      CutLast(fs);
    }
  }

  lemma BlockEnds(fs: seq<FieldAssignment>, ts: seq<Token>)
    requires BlockWritten(fs, ts)
    ensures |ts| >= 2 && ts[0].kind == LBRACE && ts[|ts| - 1].kind == RBRACE
    ensures var inner := ts[1..|ts| - 1];
      !FieldsWritten(fs, inner) ==> fs != [] && inner != [] && inner[|inner| - 1].kind == COMMA && FieldsWritten(fs, inner[..|inner| - 1])
  {
    hide FieldsWritten;
  }

  lemma FieldBlockIs(ws: seq<Assignment>, trailing: bool)
    ensures FieldBlock(ws, trailing) == [Word(LBRACE)] + ((if trailing && ws != [] then AssignmentsTokens(ws) + ([Word(COMMA)] + [Word(RBRACE)]) else AssignmentsTokens(ws) + [Word(RBRACE)]))
  {
    hide AssignmentsTokens, Word;
    assert [] + [Word(RBRACE)] == [Word(RBRACE)];
  }

  lemma FieldBlockTree(fs: seq<FieldAssignment>, ts: seq<Token>) returns (ws: seq<Assignment>, trailing: bool)
    requires BlockWritten(fs, ts) && Spelled(ts)
    ensures ProperFields(ws) && FieldBlock(ws, trailing) == ts && AssignmentsOf(ws) == fs
  {
    hide *;
    BlockEnds(fs, ts);
    var inner := ts[1..|ts| - 1];
    FixedIs(ts, 0, LBRACE);
    FixedIs(ts, |ts| - 1, RBRACE);
    SpelledPart(ts, 1, |ts| - 1);
    CutAround(ts);
    if FieldsWritten(fs, inner) {
      ws := AssignmentsTree(fs, inner);
      trailing := false;
    } else {
      var m := |inner| - 1;
      SpelledPart(inner, 0, m);
      FixedIs(inner, m, COMMA);
      ws := AssignmentsTree(fs, inner[..m]);
      trailing := true;
      CutLast(inner);
      Reassociated(inner[..m], [inner[m]], [ts[|ts| - 1]]);
    }
    FieldBlockIs(ws, trailing);
  }

  // ---- Sources ----

  lemma VarsShape(vars: seq<string>, ts: seq<Token>)
    requires vars != [] && |ts| == 2 * |vars| && forall i :: 0 <= i < |vars| ==> ts[2 * i].kind == COMMA && ts[2 * i + 1] == Var(vars[i])
    ensures |ts| >= 2 && ts[0].kind == COMMA && ts[1] == Var(vars[0])
    ensures forall i :: 0 <= i < |vars[1..]| ==> ts[2..][2 * i].kind == COMMA && ts[2..][2 * i + 1] == Var(vars[1..][i])
  {
    hide Var;
    assert ts[2 * 0].kind == COMMA && ts[2 * 0 + 1] == Var(vars[0]);
    forall i | 0 <= i < |vars[1..]| ensures ts[2..][2 * i].kind == COMMA && ts[2..][2 * i + 1] == Var(vars[1..][i]) {
      assert ts[2..][2 * i] == ts[2 * (i + 1)] && ts[2..][2 * i + 1] == ts[2 * (i + 1) + 1];
    }
  }

  lemma MoreVarsIs(vars: seq<string>)
    ensures MoreVars(vars) == if vars == [] then [] else [Word(COMMA)] + ([Var(vars[0])] + MoreVars(vars[1..]))
  {
    hide Word, Var;
  }

  lemma {:induction false} VarsSpelled(vars: seq<string>, ts: seq<Token>)
    requires Spelled(ts) && |ts| == 2 * |vars| && forall i :: 0 <= i < |vars| ==> ts[2 * i].kind == COMMA && ts[2 * i + 1] == Var(vars[i])
    ensures MoreVars(vars) == ts
    decreases |vars|
  {
    hide *;
    if vars != [] {
      var rest := ts[2..];
      VarsShape(vars, ts);
      FixedIs(ts, 0, COMMA);
      SpelledPart(ts, 2, |ts|);
      VarsSpelled(vars[1..], rest);
      CutTwo(ts);
    }
    MoreVarsIs(vars);
  }

  lemma NameSpelled(ts: seq<Token>, k: nat)
    requires Spelled(ts) && k < |ts|
    ensures ts[k].kind == IDENTIFIER ==> ts[k].text != ""
  {
    hide Spelling;
  }

  lemma VariableShape(x: string, field: string, ts: seq<Token>)
    requires SourceWritten(Variable(x, field), ts) && Spelled(ts)
    ensures ts != [] && ts[0] == Var(x) && if field == "" then |ts| == 1 else |ts| == 3 && ts[1] == Word(DOT) && ts[2] == Token(IDENTIFIER, field)
  {
    hide Spelled, Word;
    if |ts| == 3 {
      FixedIs(ts, 1, DOT);
      NameSpelled(ts, 2);
    }
  }

  lemma VariableTree(x: string, field: string, ts: seq<Token>)
    requires SourceWritten(Variable(x, field), ts) && Spelled(ts)
    ensures ProperSource(Variable(x, field)) && SourceTokens(Variable(x, field)) == ts
  {
    VariableShape(x, field, ts);
    hide SourceWritten, Spelled, Word, Var;
    if field == "" {
      assert [ts[0]] + [] == ts;
    } else {
      assert [ts[0]] + ([ts[1]] + [ts[2]]) == ts;
    }
  }

  lemma ListIsProper(vars: seq<string>)
    requires vars != []
    ensures ProperSource(ListOf(vars))
  {
  }

  lemma SourceTree(s: Source, ts: seq<Token>)
    requires SourceWritten(s, ts) && Spelled(ts)
    ensures ProperSource(s) && SourceTokens(s) == ts
  {
    match s
    case Variable(x, field) => VariableTree(x, field, ts);
    case ListOf(vars) =>
      ListShape(vars, ts);
      ListTree(vars, ts);
      hide *;
      ListIsProper(vars);
  }

  lemma ListShape(vars: seq<string>, ts: seq<Token>)
    requires SourceWritten(ListOf(vars), ts)
    ensures vars != [] && |ts| == 2 * |vars| + 1 && ts[0].kind == LPAREN && ts[1] == Var(vars[0]) && ts[2 * |vars|].kind == RPAREN
  {
    var n := |vars|;
    assert ts[2 * (n - 1) + 2].kind == RPAREN;
    assert ts[2 * 0 + 1] == Var(vars[0]);
  }

  lemma ListRest(vars: seq<string>, ts: seq<Token>)
    requires SourceWritten(ListOf(vars), ts) && vars != [] && |ts| == 2 * |vars| + 1
    ensures var more := ts[2..2 * |vars|];
      |more| == 2 * |vars[1..]| && forall i :: 0 <= i < |vars[1..]| ==> more[2 * i].kind == COMMA && more[2 * i + 1] == Var(vars[1..][i])
  {
    var n := |vars|;
    var more := ts[2..2 * n];
    forall i | 0 <= i < n - 1 ensures more[2 * i].kind == COMMA && more[2 * i + 1] == Var(vars[1..][i]) {
      assert more[2 * i] == ts[2 * i + 2] && more[2 * i + 1] == ts[2 * (i + 1) + 1];
    }
  }

  lemma ListTree(vars: seq<string>, ts: seq<Token>)
    requires SourceWritten(ListOf(vars), ts) && Spelled(ts)
    ensures SourceTokens(ListOf(vars)) == ts
  {
    ListShape(vars, ts);
    hide *;
    var n := |vars|;
    FixedIs(ts, 0, LPAREN);
    FixedIs(ts, 2 * n, RPAREN);
    SpelledPart(ts, 2, 2 * n);
    ListRest(vars, ts);
    VarsSpelled(vars[1..], ts[2..2 * n]);
    ListTokens(vars);
    CutList(ts, 2 * n);
  }

  lemma CutList(ts: seq<Token>, n: nat)
    requires |ts| == n + 1 && n >= 2
    ensures ts == [ts[0]] + (([ts[1]] + ts[2..n]) + [ts[n]])
  {
    CutAround(ts);
    assert ts[1..n] == [ts[1]] + ts[2..n];
  }

  lemma ListTokens(vars: seq<string>)
    requires vars != []
    ensures SourceTokens(ListOf(vars)) == [Word(LPAREN)] + (([Var(vars[0])] + MoreVars(vars[1..])) + [Word(RPAREN)])
  {
  }

  // ---- Statements ----

  lemma {:induction false} ProgramAppend(p: seq<Statement>, s: Statement)
    ensures ProgramTokens(p + [s]) == ProgramTokens(p) + StatementTokens(s) && ActionsOf(p + [s]) == ActionsOf(p) + [ActionOf(s)]
    decreases |p|
  {
    hide StatementTokens, ActionOf;
    if p == [] {
      assert [] + [s] == [s] && [s][1..] == [] && ProgramTokens([]) == [] && ActionsOf([]) == [];
    } else {
      assert (p + [s])[1..] == p[1..] + [s] && (p + [s])[0] == p[0];
      ProgramAppend(p[1..], s);
    }
  }

  lemma {:induction false} CasesAppend(cs: seq<CasePart>, c: CasePart)
    ensures CasesTokens(cs + [c]) == CasesTokens(cs) + CaseTokens(c) && CasesOf(cs + [c]) == CasesOf(cs) + [CaseOf(c)]
    decreases |cs|
  {
    hide CaseTokens, CaseOf;
    if cs == [] {
      assert [] + [c] == [c] && [c][1..] == [] && CasesTokens([]) == [] && CasesOf([]) == [];
    } else {
      assert (cs + [c])[1..] == cs[1..] + [c] && (cs + [c])[0] == cs[0];
      CasesAppend(cs[1..], c);
    }
  }

  lemma ConditionTree(c: Condition, ts: seq<Token>) returns (e: Expr)
    requires ConditionWritten(c, ts)
    ensures Full(e) && ExprTokens(e) == ts && ConditionOf(e) == c
  {
    hide StandsFor, ExprTokens, ExprText, Full;
    e :| IsTree(e, -1, c.text, ts);
  }

  /** Tokens that write an action are those of a statement that compiles to it. */
  lemma {:induction false} StatementTree(a: Action, ts: seq<Token>) returns (s: Statement)
    requires Writes(a, ts) && Spelled(ts)
    ensures Proper(s) && StatementTokens(s) == ts && ActionOf(s) == a
    decreases a, 1
  {
    match a
    case If(_, _, _) => s := IfTree(a, ts);
    case For(_, _, _) => s := ForTree(a, ts);
    case While(_, _) => s := WhileTree(a, ts);
    case Switch(_, _) => s := SwitchTree(a, ts);
    case _ => s := SimpleTree(a, ts);
  }

  lemma SimpleTree(a: Action, ts: seq<Token>) returns (s: Statement)
    requires Writes(a, ts) && Spelled(ts) && !a.If? && !a.For? && !a.While? && !a.Switch?
    ensures Proper(s) && StatementTokens(s) == ts && ActionOf(s) == a
  {
    match a
    case Update(_, _) => s := ChangeTree(a, ts);
    case Insert(_, _, _) => s := ChangeTree(a, ts);
    case Retract(x) => s := RetractTree(x, ts);
    case SetFocus(group) => s := FocusTree(group, ts);
    case _ => s := OneTokenTree(a, ts);
  }

  lemma OneTokenTree(a: Action, ts: seq<Token>) returns (s: Statement)
    requires Writes(a, ts) && Spelled(ts) && (a.Halt? || a.Break? || a.Continue?)
    ensures Proper(s) && StatementTokens(s) == ts && ActionOf(s) == a
  {
    FixedIs(ts, 0, ts[0].kind);
    hide Spelled, Word;
    s := if a.Halt? then HaltNow else if a.Break? then BreakNow else ContinueNow;
  }

  lemma RetractTree(x: string, ts: seq<Token>) returns (s: Statement)
    requires Writes(Retract(x), ts) && Spelled(ts)
    ensures Proper(s) && StatementTokens(s) == ts && ActionOf(s) == Retract(x)
  {
    FixedIs(ts, 0, RETRACT);
    hide Spelled, Word;
    s := RetractOf(x);
    assert ts == [ts[0]] + [ts[1]];
  }

  lemma FocusShape(group: string, ts: seq<Token>)
    requires Writes(SetFocus(group), ts)
    ensures |ts| == 4 && ts[0].kind == SET_FOCUS && ts[1].kind == LPAREN && ts[2] == Token(STRING, group) && ts[3].kind == RPAREN
  {
  }

  lemma FocusIs(group: string)
    ensures var s := FocusOn(group);
      Proper(s) && ActionOf(s) == SetFocus(group) && StatementTokens(s) == [Word(SET_FOCUS)] + ([Word(LPAREN)] + ([Token(STRING, group)] + [Word(RPAREN)]))
  {
    hide Word;
  }

  lemma FourTokens(ts: seq<Token>)
    requires |ts| == 4
    ensures ts == [ts[0]] + ([ts[1]] + ([ts[2]] + [ts[3]]))
  {
  }

  lemma FocusTree(group: string, ts: seq<Token>) returns (s: Statement)
    requires Writes(SetFocus(group), ts) && Spelled(ts)
    ensures Proper(s) && StatementTokens(s) == ts && ActionOf(s) == SetFocus(group)
  {
    FocusShape(group, ts);
    hide *;
    FixedIs(ts, 0, SET_FOCUS);
    FixedIs(ts, 1, LPAREN);
    FixedIs(ts, 3, RPAREN);
    s := FocusOn(group);
    FocusIs(group);
    FourTokens(ts);
  }

  lemma ChangeShape(a: Action, ts: seq<Token>)
    requires Writes(a, ts) && (a.Update? || a.Insert?)
    ensures |ts| >= 2 && ts[0].kind == (if a.Update? then UPDATE else if a.logical then INSERT_LOGICAL else INSERT)
    ensures ts[1] == (if a.Update? then Token(VARIABLE, a.target) else Token(IDENTIFIER, a.typeName)) && BlockWritten(a.assignments, ts[2..])
  {
    hide BlockWritten;
  }

  lemma ChangeIs(s: Statement)
    requires s.UpdateOf? || s.InsertOf?
    ensures Proper(s) <==> ProperFields(s.fields)
    ensures ActionOf(s) == if s.UpdateOf? then Update(s.target, AssignmentsOf(s.fields)) else Insert(s.typeName, AssignmentsOf(s.fields), s.logical)
    ensures StatementTokens(s) == [Word(if s.UpdateOf? then UPDATE else if s.logical then INSERT_LOGICAL else INSERT)]
      + ([if s.UpdateOf? then Token(VARIABLE, s.target) else Token(IDENTIFIER, s.typeName)] + FieldBlock(s.fields, s.trailing))
  {
    hide ProperFields, AssignmentsOf, FieldBlock, Word;
  }

  lemma ChangeTree(a: Action, ts: seq<Token>) returns (s: Statement)
    requires Writes(a, ts) && Spelled(ts) && (a.Update? || a.Insert?)
    ensures Proper(s) && StatementTokens(s) == ts && ActionOf(s) == a
  {
    ChangeShape(a, ts);
    hide *;
    FixedIs(ts, 0, ts[0].kind);
    SpelledPart(ts, 2, |ts|);
    var ws, trailing := FieldBlockTree(a.assignments, ts[2..]);
    CutTwo(ts);
    s := if a.Update? then UpdateOf(a.target, ws, trailing) else InsertOf(a.typeName, ws, trailing, a.logical);
    ChangeIs(s);
  }

  /** The same for actions one after the other. */
  lemma {:induction false} ProgramTree(acts: seq<Action>, ts: seq<Token>) returns (p: seq<Statement>)
    requires WritesAll(acts, ts) && Spelled(ts)
    ensures ProperAll(p) && ProgramTokens(p) == ts && ActionsOf(p) == acts
    decreases acts, 1
  {
    hide Proper, StatementTokens, ActionOf, Spelled, Writes;
    if acts == [] {
      p := [];
    } else {
      var n := |acts| - 1;
      var i: nat :| i <= |ts| && WritesAll(acts[..n], ts[..i]) && Writes(acts[n], ts[i..]);
      SpelledPart(ts, i, i);
      var before := ProgramTree(acts[..n], ts[..i]);
      var s := StatementTree(acts[n], ts[i..]);
      p := before + [s];
      ProgramAppend(before, s);
      assert ts == ts[..i] + ts[i..] && acts == acts[..n] + [acts[n]];
    }
  }

  lemma BracedEnds(acts: seq<Action>, ts: seq<Token>)
    requires Braced(acts, ts)
    ensures |ts| >= 2 && ts[0].kind == LBRACE && ts[|ts| - 1].kind == RBRACE && WritesAll(acts, ts[1..|ts| - 1])
  {
    hide WritesAll;
  }

  lemma BlockIs(p: seq<Statement>)
    ensures BlockTokens(p) == [Word(LBRACE)] + (ProgramTokens(p) + [Word(RBRACE)])
  {
    hide ProgramTokens, Word;
  }

  lemma {:induction false} BlockTree(acts: seq<Action>, ts: seq<Token>) returns (p: seq<Statement>)
    requires Braced(acts, ts) && Spelled(ts)
    ensures ProperAll(p) && BlockTokens(p) == ts && ActionsOf(p) == acts
    decreases acts, 2
  {
    BracedEnds(acts, ts);
    hide *;
    FixedIs(ts, 0, LBRACE);
    FixedIs(ts, |ts| - 1, RBRACE);
    SpelledPart(ts, 1, |ts| - 1);
    p := ProgramTree(acts, ts[1..|ts| - 1]);
    CutAround(ts);
    BlockIs(p);
  }

  lemma ElseStarts(acts: seq<Action>, ts: seq<Token>)
    requires ElseWritten(acts, ts)
    ensures ts == [] ==> acts == []
    ensures ts != [] ==> ts[0].kind == ELSE
    ensures ts != [] && !Braced(acts, ts[1..]) ==> |acts| == 1 && acts == [acts[0]] && acts[0].If? && Writes(acts[0], ts[1..])
  {
    hide Braced, Writes;
  }

  lemma ElseIs(o: ElsePart)
    ensures ElseTokens(o) == match o { case NoElse => [] case ElseBlock(p) => [Word(ELSE)] + BlockTokens(p) case ElseIf(s) => [Word(ELSE)] + StatementTokens(s) }
    ensures ElseActions(o) == match o { case NoElse => [] case ElseBlock(p) => ActionsOf(p) case ElseIf(s) => [ActionOf(s)] }
    ensures ProperElse(o) <==> match o { case NoElse => true case ElseBlock(p) => ProperAll(p) case ElseIf(s) => s.IfThen? && Proper(s) }
  {
    hide BlockTokens, StatementTokens, ActionsOf, ActionOf, Proper, Word;
  }

  lemma {:induction false} ElseTree(acts: seq<Action>, ts: seq<Token>) returns (o: ElsePart)
    requires ElseWritten(acts, ts) && Spelled(ts)
    ensures ProperElse(o) && ElseTokens(o) == ts && ElseActions(o) == acts
    decreases acts, 3
  {
    ElseStarts(acts, ts);
    hide *;
    if ts == [] {
      o := NoElse;
    } else {
      FixedIs(ts, 0, ELSE);
      SpelledPart(ts, 1, |ts|);
      CutHead(ts);
      if Braced(acts, ts[1..]) {
        var p := BlockTree(acts, ts[1..]);
        o := ElseBlock(p);
      } else {
        var s := StatementTree(acts[0], ts[1..]);
        IfKind(s, acts[0]);
        o := ElseIf(s);
      }
    }
    ElseIs(o);
  }

  lemma IfKind(s: Statement, a: Action)
    requires ActionOf(s) == a && a.If?
    ensures s.IfThen?
  {
    hide ActionsOf, ElseActions, CasesOf, AssignmentsOf;
  }

  lemma IfSplit(a: Action, ts: seq<Token>) returns (n: nat, i: nat)
    requires a.If? && Writes(a, ts)
    ensures 1 <= n <= i <= |ts| && ts[0].kind == IF && ConditionWritten(a.condition, ts[1..n]) && Braced(a.thenActions, ts[n..i]) && ElseWritten(a.elseActions, ts[i..])
  {
    hide ConditionWritten, Braced, ElseWritten;
    n, i :| 1 <= n <= i <= |ts| && ConditionWritten(a.condition, ts[1..n]) && Braced(a.thenActions, ts[n..i]) && ElseWritten(a.elseActions, ts[i..]);
  }

  lemma {:induction false} IfTree(a: Action, ts: seq<Token>) returns (s: Statement)
    requires a.If? && Writes(a, ts) && Spelled(ts)
    ensures Proper(s) && StatementTokens(s) == ts && ActionOf(s) == a
    decreases a, 0
  {
    var n, i := IfSplit(a, ts);
    hide *;
    FixedIs(ts, 0, IF);
    SpelledPart(ts, n, i);
    SpelledPart(ts, i, i);
    var e := ConditionTree(a.condition, ts[1..n]);
    var thens := BlockTree(a.thenActions, ts[n..i]);
    var other := ElseTree(a.elseActions, ts[i..]);
    s := IfThen(e, thens, other);
    Cut3(ts, n, i);
    IfThenIs(e, thens, other);
  }

  lemma IfThenIs(e: Expr, thens: seq<Statement>, other: ElsePart)
    ensures var s := IfThen(e, thens, other);
      && StatementTokens(s) == [Word(IF)] + (ExprTokens(e) + (BlockTokens(thens) + ElseTokens(other))) && ActionOf(s) == If(ConditionOf(e), ActionsOf(thens), ElseActions(other))
      && (Full(e) && ProperAll(thens) && ProperElse(other) ==> Proper(s))
  {
    hide Full, ExprTokens, BlockTokens, ElseTokens, ProperElse, ConditionOf, ActionsOf, ElseActions, Word;
  }

  lemma WhileSplit(a: Action, ts: seq<Token>) returns (n: nat)
    requires a.While? && Writes(a, ts)
    ensures 1 <= n <= |ts| && ts[0].kind == WHILE && ConditionWritten(a.condition, ts[1..n]) && Braced(a.body, ts[n..])
  {
    hide ConditionWritten, Braced;
    n :| 1 <= n <= |ts| && ConditionWritten(a.condition, ts[1..n]) && Braced(a.body, ts[n..]);
  }

  lemma {:induction false} WhileTree(a: Action, ts: seq<Token>) returns (s: Statement)
    requires a.While? && Writes(a, ts) && Spelled(ts)
    ensures Proper(s) && StatementTokens(s) == ts && ActionOf(s) == a
    decreases a, 0
  {
    var n := WhileSplit(a, ts);
    hide *;
    FixedIs(ts, 0, WHILE);
    SpelledPart(ts, n, n);
    var e := ConditionTree(a.condition, ts[1..n]);
    var body := BlockTree(a.body, ts[n..]);
    s := WhileTrue(e, body);
    Cut(ts, n);
    WhileTrueIs(e, body);
  }

  lemma WhileTrueIs(e: Expr, body: seq<Statement>)
    ensures var s := WhileTrue(e, body);
      && StatementTokens(s) == [Word(WHILE)] + (ExprTokens(e) + BlockTokens(body)) && ActionOf(s) == While(ConditionOf(e), ActionsOf(body))
      && (Full(e) && ProperAll(body) ==> Proper(s))
  {
    hide Full, ExprTokens, BlockTokens, ConditionOf, ActionsOf, Word;
  }

  lemma ForSplit(a: Action, ts: seq<Token>) returns (n: nat)
    requires a.For? && Writes(a, ts)
    ensures 3 <= n <= |ts| && ts[0].kind == FOR && ts[1] == Var(a.iterVar) && ts[2].kind == IN && SourceWritten(a.source, ts[3..n]) && Braced(a.body, ts[n..])
  {
    hide SourceWritten, Braced;
    n :| 3 <= n <= |ts| && SourceWritten(a.source, ts[3..n]) && Braced(a.body, ts[n..]);
  }

  lemma {:induction false} ForTree(a: Action, ts: seq<Token>) returns (s: Statement)
    requires a.For? && Writes(a, ts) && Spelled(ts)
    ensures Proper(s) && StatementTokens(s) == ts && ActionOf(s) == a
    decreases a, 0
  {
    var n := ForSplit(a, ts);
    hide *;
    FixedIs(ts, 0, FOR);
    FixedIs(ts, 2, IN);
    SpelledPart(ts, 3, n);
    SpelledPart(ts, n, n);
    SourceTree(a.source, ts[3..n]);
    var body := BlockTree(a.body, ts[n..]);
    s := ForEach(a.iterVar, a.source, body);
    CutThree(ts, n);
    ForEachIs(a.iterVar, a.source, body);
  }

  lemma ForEachIs(x: string, source: Source, body: seq<Statement>)
    ensures var s := ForEach(x, source, body);
      && StatementTokens(s) == [Word(FOR)] + ([Var(x)] + ([Word(IN)] + (SourceTokens(source) + BlockTokens(body)))) && ActionOf(s) == For(x, source, ActionsOf(body))
      && (ProperSource(source) && ProperAll(body) ==> Proper(s))
  {
    hide ProperSource, SourceTokens, BlockTokens, ActionsOf, Word, Var;
  }

  lemma SwitchSplit(a: Action, ts: seq<Token>) returns (n: nat)
    requires a.Switch? && Writes(a, ts)
    ensures 1 <= n <= |ts| && ts[0].kind == SWITCH && ConditionWritten(a.expr, ts[1..n]) && CaseBlockWritten(a.cases, ts[n..])
  {
    hide ConditionWritten, CaseBlockWritten;
    n :| 1 <= n <= |ts| && ConditionWritten(a.expr, ts[1..n]) && CaseBlockWritten(a.cases, ts[n..]);
  }

  lemma {:induction false} SwitchTree(a: Action, ts: seq<Token>) returns (s: Statement)
    requires a.Switch? && Writes(a, ts) && Spelled(ts)
    ensures Proper(s) && StatementTokens(s) == ts && ActionOf(s) == a
    decreases a, 0
  {
    var n := SwitchSplit(a, ts);
    hide *;
    FixedIs(ts, 0, SWITCH);
    SpelledPart(ts, n, n);
    var e := ConditionTree(a.expr, ts[1..n]);
    var cases := CaseBlockTree(a.cases, ts[n..]);
    s := SwitchOn(e, cases);
    Cut(ts, n);
    SwitchOnIs(e, cases);
  }

  lemma SwitchOnIs(e: Expr, cases: seq<CasePart>)
    ensures var s := SwitchOn(e, cases);
      && StatementTokens(s) == [Word(SWITCH)] + (ExprTokens(e) + CaseBlockTokens(cases)) && ActionOf(s) == Switch(ConditionOf(e), CasesOf(cases))
      && (Full(e) && ProperCases(cases) ==> Proper(s))
  {
    hide Full, ExprTokens, CaseBlockTokens, ConditionOf, CasesOf, ProperCases, Word;
  }

  lemma CaseBlockEnds(cs: seq<SwitchCase>, ts: seq<Token>)
    requires CaseBlockWritten(cs, ts)
    ensures |ts| >= 2 && ts[0].kind == LBRACE && ts[|ts| - 1].kind == RBRACE && CasesWritten(cs, ts[1..|ts| - 1])
  {
    hide CasesWritten;
  }

  lemma CaseBlockIs(cs: seq<CasePart>)
    ensures CaseBlockTokens(cs) == [Word(LBRACE)] + (CasesTokens(cs) + [Word(RBRACE)])
  {
    hide CasesTokens, Word;
  }

  lemma {:induction false} CaseBlockTree(cs: seq<SwitchCase>, ts: seq<Token>) returns (ws: seq<CasePart>)
    requires CaseBlockWritten(cs, ts) && Spelled(ts)
    ensures ProperCases(ws) && CaseBlockTokens(ws) == ts && CasesOf(ws) == cs
    decreases cs, 2
  {
    CaseBlockEnds(cs, ts);
    hide *;
    FixedIs(ts, 0, LBRACE);
    FixedIs(ts, |ts| - 1, RBRACE);
    SpelledPart(ts, 1, |ts| - 1);
    ws := CasesTree(cs, ts[1..|ts| - 1]);
    CutAround(ts);
    CaseBlockIs(ws);
  }

  lemma {:induction false} CasesTree(cs: seq<SwitchCase>, ts: seq<Token>) returns (ws: seq<CasePart>)
    requires CasesWritten(cs, ts) && Spelled(ts)
    ensures ProperCases(ws) && CasesTokens(ws) == ts && CasesOf(ws) == cs
    decreases cs, 1
  {
    hide ProperCase, CaseTokens, CaseOf, Spelled, CaseWritten;
    if cs == [] {
      ws := [];
    } else {
      var n := |cs| - 1;
      var i: nat :| i <= |ts| && CasesWritten(cs[..n], ts[..i]) && CaseWritten(cs[n], ts[i..]);
      SpelledPart(ts, i, i);
      var before := CasesTree(cs[..n], ts[..i]);
      var c := CaseTree(cs[n], ts[i..]);
      ws := before + [c];
      CasesAppend(before, c);
      assert ts == ts[..i] + ts[i..] && cs == cs[..n] + [cs[n]];
    }
  }

  lemma CaseSplit(c: SwitchCase, ts: seq<Token>) returns (n: nat)
    requires CaseWritten(c, ts)
    ensures 1 <= n <= |ts| && Braced(c.actions, ts[n..])
    ensures if c.value.None? then n == 1 && ts[0].kind == DEFAULT && ts[1..n] == [] else ts[0].kind == CASE && ConditionWritten(c.value.value, ts[1..n])
  {
    hide ConditionWritten, Braced;
    if c.value.None? {
      n := 1;
    } else {
      n :| 1 <= n <= |ts| && ConditionWritten(c.value.value, ts[1..n]) && Braced(c.actions, ts[n..]);
    }
  }

  lemma CaseIs(e: Expr, body: seq<Statement>)
    ensures var w := CasePart(Some(e), body);
      && CaseTokens(w) == [Word(CASE)] + (ExprTokens(e) + BlockTokens(body)) && CaseOf(w) == SwitchCase(Some(ConditionOf(e)), ActionsOf(body))
      && (ProperCase(w) <==> Full(e) && ProperAll(body))
  {
    hide ExprTokens, BlockTokens, ActionsOf, ConditionOf, Full, Proper, Word;
  }

  lemma DefaultIs(body: seq<Statement>)
    ensures var w := CasePart(None, body);
      CaseTokens(w) == [Word(DEFAULT)] + ([] + BlockTokens(body)) && CaseOf(w) == SwitchCase(None, ActionsOf(body)) && (ProperCase(w) <==> ProperAll(body))
  {
    hide BlockTokens, ActionsOf, Proper, Word;
    assert [] + BlockTokens(body) == BlockTokens(body);
  }

  lemma {:induction false} CaseTree(c: SwitchCase, ts: seq<Token>) returns (w: CasePart)
    requires CaseWritten(c, ts) && Spelled(ts)
    ensures ProperCase(w) && CaseTokens(w) == ts && CaseOf(w) == c
    decreases c, 0
  {
    var n := CaseSplit(c, ts);
    hide *;
    SpelledPart(ts, n, n);
    Cut(ts, n);
    var body := BlockTree(c.actions, ts[n..]);
    if c.value.None? {
      w := CasePart(None, body);
      FixedIs(ts, 0, DEFAULT);
      DefaultIs(body);
    } else {
      var e := ConditionTree(c.value.value, ts[1..n]);
      w := CasePart(Some(e), body);
      FixedIs(ts, 0, CASE);
      CaseIs(e, body);
    }
  }
}
