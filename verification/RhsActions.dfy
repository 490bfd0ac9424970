/** Compiled right-hand side actions: when their names are in scope, and which tokens write them. */
module RhsActions {
  import opened Wrappers
  import opened RhsLexer
  import opened RhsText
  import opened ExpressionRefs
  import opened RhsScope
  import opened RhsGrammar

  // ---- Compiled actions ----

  datatype Value = StringLiteral(s: string) | BooleanLiteral(b: bool) | NumberLiteral(text: string) | VarRef(ref: string) | Expression(text: string) | NoValue

  datatype FieldAssignment = FieldAssignment(field: string, value: Value)

  datatype Source = ListOf(vars: seq<string>) | Variable(name: string, field: string)

  /** A compiled expression: the emitted text, and the tokens it was read from. */
  datatype Condition = Condition(text: string, tokens: seq<Token>)

  datatype SwitchCase = SwitchCase(value: Option<Condition>, actions: seq<Action>)

  datatype Action =
    | Update(target: string, assignments: seq<FieldAssignment>)
    | Insert(typeName: string, assignments: seq<FieldAssignment>, logical: bool)
    | Retract(target: string)
    | Halt
    | SetFocus(group: string)
    | If(condition: Condition, thenActions: seq<Action>, elseActions: seq<Action>)
    | For(iterVar: string, source: Source, body: seq<Action>)
    | While(condition: Condition, body: seq<Action>)
    | Switch(expr: Condition, cases: seq<SwitchCase>)
    | Break
    | Continue
    | Failed

  // ---- Scoping ----

  /** Variables in reach: fact bindings (including loop variables) and globals. */
  datatype Scope = Scope(facts: set<string>, globals: set<string>)

  function Sources(sc: Scope): set<string> { sc.facts + sc.globals }

  ghost predicate ValueScoped(v: Value, sc: Scope) {
    match v
    case VarRef(ref) => Base(ref) in Sources(sc)
    case Expression(text) => RefsOk(text, Sources(sc))
    case _ => true
  }

  ghost predicate AssignmentsScoped(fs: seq<FieldAssignment>, sc: Scope) {
    forall i :: 0 <= i < |fs| ==> ValueScoped(fs[i].value, sc)
  }

  ghost predicate SourceScoped(s: Source, sc: Scope) {
    match s
    case ListOf(vars) => forall i :: 0 <= i < |vars| ==> vars[i] in sc.facts
    case Variable(name, _) => name in Sources(sc)
  }

  /** Every reference in the text is available, and so is every variable token with a name. */
  ghost predicate ConditionScoped(c: Condition, sc: Scope) {
    RefsOk(c.text, Sources(sc)) && InScope(c.tokens, Sources(sc))
  }

  /** Targets and loop sources are declared where they are used, and so is every reference in a
      condition, a switch expression or a case value; a loop variable is in scope in its body only. */
  ghost predicate Scoped(a: Action, sc: Scope) {
    match a
    case Update(target, fs) => target in sc.facts && AssignmentsScoped(fs, sc)
    case Insert(_, fs, _) => AssignmentsScoped(fs, sc)
    case Retract(target) => target in sc.facts
    case If(e, ts, es) => ConditionScoped(e, sc) && (forall i :: 0 <= i < |ts| ==> Scoped(ts[i], sc)) && (forall i :: 0 <= i < |es| ==> Scoped(es[i], sc))
    case For(x, source, body) =>
      SourceScoped(source, sc) && var inner := sc.(facts := sc.facts + {x}); forall i :: 0 <= i < |body| ==> Scoped(body[i], inner)
    case While(e, body) => ConditionScoped(e, sc) && forall i :: 0 <= i < |body| ==> Scoped(body[i], sc)
    case Switch(e, cases) => ConditionScoped(e, sc) && forall i :: 0 <= i < |cases| ==> CaseScoped(cases[i], sc)
    case _ => true
  }

  ghost predicate CaseScoped(c: SwitchCase, sc: Scope) {
    && (c.value.Some? ==> ConditionScoped(c.value.value, sc))
    && forall i :: 0 <= i < |c.actions| ==> Scoped(c.actions[i], sc)
  }

  ghost predicate AllScoped(acts: seq<Action>, sc: Scope) { forall i :: 0 <= i < |acts| ==> Scoped(acts[i], sc) }

  lemma IfScoped(e: Condition, ts: seq<Action>, es: seq<Action>, sc: Scope)
    requires ConditionScoped(e, sc) && AllScoped(ts, sc) && AllScoped(es, sc)
    ensures Scoped(If(e, ts, es), sc)
  {
  }

  lemma ForScoped(x: string, source: Source, body: seq<Action>, sc: Scope)
    requires SourceScoped(source, sc) && AllScoped(body, sc.(facts := sc.facts + {x}))
    ensures Scoped(For(x, source, body), sc)
  {
  }

  lemma WhileScoped(e: Condition, body: seq<Action>, sc: Scope)
    requires ConditionScoped(e, sc) && AllScoped(body, sc)
    ensures Scoped(While(e, body), sc)
  {
  }

  lemma SwitchScoped(e: Condition, cases: seq<SwitchCase>, sc: Scope)
    requires ConditionScoped(e, sc) && forall i :: 0 <= i < |cases| ==> CaseScoped(cases[i], sc)
    ensures Scoped(Switch(e, cases), sc)
  {
  }

  lemma NothingScoped(sc: Scope)
    ensures AllScoped([], sc)
  {
  }

  lemma OneMoreScoped(acts: seq<Action>, a: Action, sc: Scope)
    requires AllScoped(acts, sc) && Scoped(a, sc)
    ensures AllScoped(acts + [a], sc)
  {
    hide Scoped;
  }

  lemma SimpleScoped(a: Action, sc: Scope)
    requires a.Halt? || a.Break? || a.Continue? || a.SetFocus?
    ensures Scoped(a, sc)
  {
  }

  lemma VariableText(v: Token)
    requires TokenOk(v) && v.kind == VARIABLE
    ensures v.text != ""
  {
  }

  lemma RetractScoped(v: Token, sc: Scope)
    requires TokenOk(v) && v.kind == VARIABLE && (v.text != "" ==> v.text in sc.facts)
    ensures Scoped(Retract(v.text), sc)
  {
  }

  lemma UpdateScoped(v: Token, fs: seq<FieldAssignment>, sc: Scope)
    requires TokenOk(v) && v.kind == VARIABLE && (v.text != "" ==> v.text in sc.facts) && AssignmentsScoped(fs, sc)
    ensures Scoped(Update(v.text, fs), sc)
  {
  }

  lemma InsertScoped(name: string, fs: seq<FieldAssignment>, logical: bool, sc: Scope)
    requires AssignmentsScoped(fs, sc)
    ensures Scoped(Insert(name, fs, logical), sc)
  {
  }

  lemma ListScoped(vars: seq<string>, sc: Scope)
    requires forall i :: 0 <= i < |vars| ==> vars[i] in sc.facts
    ensures SourceScoped(ListOf(vars), sc)
  {
  }

  lemma VariableScoped(v: Token, field: string, sc: Scope)
    requires TokenOk(v) && v.kind == VARIABLE && (v.text != "" ==> v.text in Sources(sc))
    ensures SourceScoped(Variable(v.text, field), sc)
  {
    VariableText(v);
  }

  lemma CaseIsScoped(c: SwitchCase, sc: Scope)
    requires (c.value.Some? ==> ConditionScoped(c.value.value, sc)) && AllScoped(c.actions, sc)
    ensures CaseScoped(c, sc)
  {
  }

  lemma NoAssignments(sc: Scope)
    ensures AssignmentsScoped([], sc)
  {
  }

  lemma OneMoreAssignment(fs: seq<FieldAssignment>, f: FieldAssignment, sc: Scope)
    requires AssignmentsScoped(fs, sc) && ValueScoped(f.value, sc)
    ensures AssignmentsScoped(fs + [f], sc)
  {
    hide ValueScoped;
  }

  lemma LiteralsScoped(sc: Scope)
    ensures forall s :: ValueScoped(StringLiteral(s), sc)
    ensures forall b :: ValueScoped(BooleanLiteral(b), sc)
    ensures forall s :: ValueScoped(NumberLiteral(s), sc)
  {
  }

  // ---- Tokens and the actions they write ----

  /** Consuming `ts` leads from `a` to `b`. */
  ghost predicate Took(a: seq<Token>, b: seq<Token>, ts: seq<Token>) { b == a + ts }

  lemma TookNone(a: seq<Token>)
    ensures Took(a, a, [])
  {
  }

  lemma TookThen(a: seq<Token>, b: seq<Token>, c: seq<Token>, ts: seq<Token>, us: seq<Token>)
    requires Took(a, b, ts) && Took(b, c, us)
    ensures Took(a, c, ts + us)
  {
  }

  lemma TookThen3(a: seq<Token>, b: seq<Token>, c: seq<Token>, d: seq<Token>, ts: seq<Token>, us: seq<Token>, vs: seq<Token>)
    requires Took(a, b, ts) && Took(b, c, us) && Took(c, d, vs)
    ensures Took(a, d, ts + us + vs)
  {
  }

  /** The tokens of a condition, and the text that is emitted for them. */
  ghost predicate ConditionWritten(c: Condition, ts: seq<Token>) { ts == c.tokens && Parsed(c.text, ts) }

  /** Strings and upper-case names are literals, as are `true`, `false` and numbers; anything else is
      an expression, which is a reference if it starts with `$` and holds none of the operator characters. */
  ghost predicate ValueWritten(v: Value, ts: seq<Token>) {
    match v
    case StringLiteral(s) => |ts| == 1 && ts[0].text == s && (ts[0].kind == STRING || (ts[0].kind == IDENTIFIER && UpperName(s)))
    case BooleanLiteral(b) => |ts| == 1 && ts[0].kind == if b then TRUE else FALSE
    case NumberLiteral(text) => |ts| == 1 && ts[0].text == text && (ts[0].kind == INTEGER || ts[0].kind == DOUBLE)
    case VarRef(ref) => Parsed(ref, ts) && IsReferenceText(ref) && StartsComputed(ts)
    case Expression(text) => Parsed(text, ts) && !IsReferenceText(text) && StartsComputed(ts)
    case NoValue => false
  }

  /** A single token that is a value by itself. */
  predicate IsLiteral(ts: seq<Token>) {
    |ts| == 1 && (ts[0].kind in {STRING, TRUE, FALSE, INTEGER, DOUBLE} || (ts[0].kind == IDENTIFIER && UpperName(ts[0].text)))
  }

  /** What stands in the place of a value and does not start with a value by itself; an upper-case
      name with a dot behind it is none. */
  predicate StartsComputed(ts: seq<Token>) {
    && ts != [] && ts[0].kind !in {STRING, TRUE, FALSE, INTEGER, DOUBLE}
    && (ts[0].kind == IDENTIFIER && UpperName(ts[0].text) ==> |ts| >= 2 && ts[1].kind == DOT)
  }

  predicate UpperName(s: string) { forall k :: 0 <= k < |s| ==> 'A' <= s[k] <= 'Z' || '0' <= s[k] <= '9' || s[k] == '_' }

  lemma UpperNames()
    ensures UpperName("AZ_09") && !UpperName("Az") && !UpperName("A.Z")
  {
    assert "Az"[1] == 'z' && "A.Z"[1] == '.';
  }

  predicate IsReferenceText(e: string) {
    e != "" && e[0] == '$' && forall k :: 0 <= k < |e| ==> e[k] !in {'+', '-', '*', '/', '>', '<', '!', '='}
  }

  /** One operator character of the listed ones makes an expression of a reference; `%` does not. */
  lemma ReferenceChars(c: char)
    ensures IsReferenceText("$a" + [c] + "b") <==> !(c == '+' || c == '-' || c == '*' || c == '/' || c == '>' || c == '<' || c == '!' || c == '=')
  {
    var e := "$a" + [c] + "b";
    assert e[0] == '$' && e[1] == 'a' && e[2] == c && e[3] == 'b';
  }

  ghost predicate FieldWritten(f: FieldAssignment, ts: seq<Token>) {
    |ts| >= 2 && ts[0] == Token(IDENTIFIER, f.field) && ts[1].kind == ASSIGN && ValueWritten(f.value, ts[2..])
  }

  /** Assignments with commas between them. */
  ghost predicate FieldsWritten(fs: seq<FieldAssignment>, ts: seq<Token>)
    decreases fs, 1
  {
    if fs == [] then ts == []
    else if |fs| == 1 then FieldWritten(fs[0], ts)
    else exists i: nat :: FieldsSplit(fs, ts, i)
  }

  ghost predicate FieldsSplit(fs: seq<FieldAssignment>, ts: seq<Token>, i: nat)
    requires |fs| > 1
    decreases fs, 0
  {
    i < |ts| && FieldsWritten(fs[..|fs| - 1], ts[..i]) && ts[i].kind == COMMA && FieldWritten(fs[|fs| - 1], ts[i + 1..])
  }

  /** `{ field = value, ... }`, where a last comma may follow. */
  ghost predicate BlockWritten(fs: seq<FieldAssignment>, ts: seq<Token>) {
    && |ts| >= 2 && ts[0].kind == LBRACE && ts[|ts| - 1].kind == RBRACE
    && var inner := ts[1..|ts| - 1];
       || FieldsWritten(fs, inner)
       || (fs != [] && inner != [] && inner[|inner| - 1].kind == COMMA && FieldsWritten(fs, inner[..|inner| - 1]))
  }

  /** `($a, $b)`, `$x` or `$x.field` */
  predicate SourceWritten(s: Source, ts: seq<Token>) {
    match s
    case ListOf(vars) =>
      && vars != [] && |ts| == 2 * |vars| + 1 && ts[0].kind == LPAREN
      && forall i :: 0 <= i < |vars| ==> ts[2 * i + 1] == Token(VARIABLE, vars[i]) && ts[2 * i + 2].kind == if i < |vars| - 1 then COMMA else RPAREN
    case Variable(name, field) =>
      && ts != [] && ts[0] == Token(VARIABLE, name)
      && if |ts| == 1 then field == "" else |ts| == 3 && ts[1].kind == DOT && ts[2] == Token(IDENTIFIER, field)
  }

  /** The tokens write the action: keyword, target, assignments, condition and blocks in order. */
  ghost predicate Writes(a: Action, ts: seq<Token>)
    decreases a, 0
  {
    match a
    case Update(target, fs) => |ts| >= 2 && ts[0].kind == UPDATE && ts[1] == Token(VARIABLE, target) && BlockWritten(fs, ts[2..])
    case Insert(name, fs, logical) =>
      |ts| >= 2 && ts[0].kind == (if logical then INSERT_LOGICAL else INSERT) && ts[1] == Token(IDENTIFIER, name) && BlockWritten(fs, ts[2..])
    case Retract(target) => |ts| == 2 && ts[0].kind == RETRACT && ts[1] == Token(VARIABLE, target)
    case Halt => |ts| == 1 && ts[0].kind == HALT
    case SetFocus(group) => |ts| == 4 && ts[0].kind == SET_FOCUS && ts[1].kind == LPAREN && ts[2] == Token(STRING, group) && ts[3].kind == RPAREN
    case If(c, thens, elses) =>
      ts != [] && ts[0].kind == IF && exists n: nat, i: nat ::
        1 <= n <= i <= |ts| && ConditionWritten(c, ts[1..n]) && Braced(thens, ts[n..i]) && ElseWritten(elses, ts[i..])
    case For(x, source, body) =>
      |ts| >= 3 && ts[0].kind == FOR && ts[1] == Token(VARIABLE, x) && ts[2].kind == IN && exists n: nat ::
        3 <= n <= |ts| && SourceWritten(source, ts[3..n]) && Braced(body, ts[n..])
    case While(c, body) =>
      ts != [] && ts[0].kind == WHILE && exists n: nat :: 1 <= n <= |ts| && ConditionWritten(c, ts[1..n]) && Braced(body, ts[n..])
    case Switch(c, cases) =>
      ts != [] && ts[0].kind == SWITCH && exists n: nat :: 1 <= n <= |ts| && ConditionWritten(c, ts[1..n]) && CaseBlockWritten(cases, ts[n..])
    case Break => |ts| == 1 && ts[0].kind == BREAK
    case Continue => |ts| == 1 && ts[0].kind == CONTINUE
    case Failed => false
  }

  /** Actions one after the other. */
  ghost predicate WritesAll(acts: seq<Action>, ts: seq<Token>)
    decreases acts, 1
  {
    if acts == [] then ts == []
    else exists i: nat :: i <= |ts| && WritesAll(acts[..|acts| - 1], ts[..i]) && Writes(acts[|acts| - 1], ts[i..])
  }

  /** Actions between braces. */
  ghost predicate Braced(acts: seq<Action>, ts: seq<Token>)
    decreases acts, 2
  {
    |ts| >= 2 && ts[0].kind == LBRACE && ts[|ts| - 1].kind == RBRACE && WritesAll(acts, ts[1..|ts| - 1])
  }

  /** Nothing, `else` and a block, or `else if`. */
  ghost predicate ElseWritten(acts: seq<Action>, ts: seq<Token>)
    decreases acts, 3
  {
    || (acts == [] && ts == [])
    || (ts != [] && ts[0].kind == ELSE && (Braced(acts, ts[1..]) || (|acts| == 1 && acts[0].If? && Writes(acts[0], ts[1..]))))
  }

  ghost predicate CaseWritten(c: SwitchCase, ts: seq<Token>)
    decreases c, 0
  {
    && ts != []
    && match c.value
       case None => ts[0].kind == DEFAULT && Braced(c.actions, ts[1..])
       case Some(v) => ts[0].kind == CASE && exists n: nat :: 1 <= n <= |ts| && ConditionWritten(v, ts[1..n]) && Braced(c.actions, ts[n..])
  }

  /** Cases between braces. */
  ghost predicate CaseBlockWritten(cs: seq<SwitchCase>, ts: seq<Token>)
    decreases cs, 2
  {
    |ts| >= 2 && ts[0].kind == LBRACE && ts[|ts| - 1].kind == RBRACE && CasesWritten(cs, ts[1..|ts| - 1])
  }

  ghost predicate CasesWritten(cs: seq<SwitchCase>, ts: seq<Token>)
    decreases cs, 1
  {
    if cs == [] then ts == []
    else exists i: nat :: i <= |ts| && CasesWritten(cs[..|cs| - 1], ts[..i]) && CaseWritten(cs[|cs| - 1], ts[i..])
  }

  // ---- Written, piece by piece ----

  lemma NothingWritten()
    ensures WritesAll([], []) && FieldsWritten([], []) && CasesWritten([], []) && ElseWritten([], [])
  {
  }

  lemma OneMoreWritten(acts: seq<Action>, ts: seq<Token>, a: Action, us: seq<Token>)
    requires WritesAll(acts, ts) && Writes(a, us)
    ensures WritesAll(acts + [a], ts + us)
  {
    hide Writes;
    var all, n := ts + us, |ts|;
    assert all[..n] == ts && all[n..] == us;
    assert (acts + [a])[..|acts|] == acts;
    assert WritesAll((acts + [a])[..|acts + [a]| - 1], all[..n]) && Writes((acts + [a])[|acts + [a]| - 1], all[n..]);
  }

  lemma BracedWritten(lb: Token, acts: seq<Action>, ts: seq<Token>, rb: Token)
    requires lb.kind == LBRACE && rb.kind == RBRACE && WritesAll(acts, ts)
    ensures Braced(acts, [lb] + ts + [rb])
  {
    var all := [lb] + ts + [rb];
    assert all[1..|all| - 1] == ts;
    hide WritesAll;
  }

  /** Actions and a closing brace. */
  ghost predicate Closed(acts: seq<Action>, ts: seq<Token>) {
    ts != [] && ts[|ts| - 1].kind == RBRACE && WritesAll(acts, ts[..|ts| - 1])
  }

  lemma CloseBlock(acts: seq<Action>, ts: seq<Token>, rb: Token, t0: seq<Token>, t1: seq<Token>, t2: seq<Token>)
    requires WritesAll(acts, ts) && rb.kind == RBRACE && Took(t0, t1, ts) && Took(t1, t2, [rb])
    ensures Closed(acts, ts + [rb]) && Took(t0, t2, ts + [rb])
  {
    hide WritesAll, Took;
    assert (ts + [rb])[..|ts|] == ts;
    TookThen(t0, t1, t2, ts, [rb]);
  }

  lemma OpenBraces(lb: Token, acts: seq<Action>, ts: seq<Token>, t0: seq<Token>, t1: seq<Token>, t2: seq<Token>)
    requires lb.kind == LBRACE && Closed(acts, ts) && Took(t0, t1, [lb]) && Took(t1, t2, ts)
    ensures Braced(acts, [lb] + ts) && Took(t0, t2, [lb] + ts)
  {
    hide WritesAll, Took;
    var all := [lb] + ts;
    assert all[1..|all| - 1] == ts[..|ts| - 1];
    TookThen(t0, t1, t2, [lb], ts);
  }

  lemma SimpleWritten(a: Action, t: Token)
    requires (a == Halt && t.kind == HALT) || (a == Break && t.kind == BREAK) || (a == Continue && t.kind == CONTINUE)
    ensures Writes(a, [t])
  {
  }

  lemma RetractWritten(kw: Token, v: Token)
    requires kw.kind == RETRACT && v.kind == VARIABLE
    ensures Writes(Retract(v.text), [kw] + [v])
  {
  }

  lemma SetFocusWritten(kw: Token, lp: Token, group: Token, rp: Token)
    requires kw.kind == SET_FOCUS && lp.kind == LPAREN && group.kind == STRING && rp.kind == RPAREN
    ensures Writes(SetFocus(group.text), [kw] + [lp] + [group] + [rp])
  {
  }

  lemma UpdateWritten(kw: Token, v: Token, fs: seq<FieldAssignment>, b: seq<Token>)
    requires kw.kind == UPDATE && v.kind == VARIABLE && BlockWritten(fs, b)
    ensures Writes(Update(v.text, fs), [kw] + [v] + b)
  {
    hide BlockWritten;
    assert ([kw] + [v] + b)[2..] == b;
  }

  lemma InsertWritten(kw: Token, name: Token, fs: seq<FieldAssignment>, b: seq<Token>, logical: bool)
    requires kw.kind == (if logical then INSERT_LOGICAL else INSERT) && name.kind == IDENTIFIER && BlockWritten(fs, b)
    ensures Writes(Insert(name.text, fs, logical), [kw] + [name] + b)
  {
    hide BlockWritten;
    assert ([kw] + [name] + b)[2..] == b;
  }

  lemma IfWritten(kw: Token, c: Condition, thens: seq<Action>, b: seq<Token>, elses: seq<Action>, e: seq<Token>)
    requires kw.kind == IF && ConditionWritten(c, c.tokens) && Braced(thens, b) && ElseWritten(elses, e)
    ensures Writes(If(c, thens, elses), [kw] + c.tokens + b + e)
  {
    hide ConditionWritten, Braced, ElseWritten;
    var ts, n, i := [kw] + c.tokens + b + e, 1 + |c.tokens|, 1 + |c.tokens| + |b|;
    assert ts[1..n] == c.tokens && ts[n..i] == b && ts[i..] == e;
  }

  lemma ElseBlockWritten(el: Token, acts: seq<Action>, b: seq<Token>)
    requires el.kind == ELSE && Braced(acts, b)
    ensures ElseWritten(acts, [el] + b)
  {
    hide Braced, Writes;
    assert ([el] + b)[1..] == b;
  }

  lemma ElseIfWritten(el: Token, a: Action, ts: seq<Token>)
    requires el.kind == ELSE && a.If? && Writes(a, ts)
    ensures ElseWritten([] + [a], [el] + ts)
  {
    hide Braced, Writes;
    assert ([el] + ts)[1..] == ts;
  }

  lemma WhileWritten(kw: Token, c: Condition, body: seq<Action>, b: seq<Token>)
    requires kw.kind == WHILE && ConditionWritten(c, c.tokens) && Braced(body, b)
    ensures Writes(While(c, body), [kw] + c.tokens + b)
  {
    hide ConditionWritten, Braced;
    var ts, n := [kw] + c.tokens + b, 1 + |c.tokens|;
    assert ts[1..n] == c.tokens && ts[n..] == b;
  }

  /** `for $x in source` */
  ghost predicate HeaderWritten(x: string, source: Source, ts: seq<Token>) {
    |ts| >= 3 && ts[0].kind == FOR && ts[1] == Token(VARIABLE, x) && ts[2].kind == IN && SourceWritten(source, ts[3..])
  }

  lemma IsHeader(kw: Token, v: Token, kwIn: Token, source: Source, ss: seq<Token>)
    requires kw.kind == FOR && v.kind == VARIABLE && kwIn.kind == IN && SourceWritten(source, ss)
    ensures HeaderWritten(v.text, source, [kw] + [v] + [kwIn] + ss)
  {
    hide SourceWritten;
    assert ([kw] + [v] + [kwIn] + ss)[3..] == ss;
  }

  lemma ForIs(x: string, source: Source, body: seq<Action>, ts: seq<Token>, n: nat)
    requires 3 <= n <= |ts| && ts[0].kind == FOR && ts[1] == Token(VARIABLE, x) && ts[2].kind == IN && SourceWritten(source, ts[3..n]) && Braced(body, ts[n..])
    ensures Writes(For(x, source, body), ts)
  {
    hide Braced, SourceWritten;
  }

  lemma BehindHeader(hs: seq<Token>, bs: seq<Token>)
    requires |hs| >= 3
    ensures (hs + bs)[3..|hs|] == hs[3..] && (hs + bs)[|hs|..] == bs && (hs + bs)[0] == hs[0] && (hs + bs)[1] == hs[1] && (hs + bs)[2] == hs[2]
  {
  }

  lemma ForWritten(x: string, source: Source, hs: seq<Token>, lb: Token, body: seq<Action>, bs: seq<Token>, rb: Token)
    requires HeaderWritten(x, source, hs) && lb.kind == LBRACE && WritesAll(body, bs) && rb.kind == RBRACE
    ensures Writes(For(x, source, body), hs + [lb] + bs + [rb])
  {
    hide Writes, WritesAll, Braced, SourceWritten;
    BracedWritten(lb, body, bs, rb);
    var b := [lb] + bs + [rb];
    BehindHeader(hs, b);
    ForIs(x, source, body, hs + b, |hs|);
    assert hs + b == hs + [lb] + bs + [rb];
  }

  lemma CaseBlockIsWritten(lb: Token, cases: seq<SwitchCase>, cs: seq<Token>, rb: Token)
    requires lb.kind == LBRACE && CasesWritten(cases, cs) && rb.kind == RBRACE
    ensures CaseBlockWritten(cases, [lb] + cs + [rb])
  {
    var all := [lb] + cs + [rb];
    assert all[1..|all| - 1] == cs;
    hide CasesWritten;
  }

  lemma SwitchWritten(kw: Token, c: Condition, cases: seq<SwitchCase>, b: seq<Token>)
    requires kw.kind == SWITCH && ConditionWritten(c, c.tokens) && CaseBlockWritten(cases, b)
    ensures Writes(Switch(c, cases), [kw] + c.tokens + b)
  {
    hide ConditionWritten, CaseBlockWritten;
    var ts, n := [kw] + c.tokens + b, 1 + |c.tokens|;
    assert ts[1..n] == c.tokens && ts[n..] == b;
  }

  lemma CaseIsWritten(kw: Token, c: Condition, acts: seq<Action>, b: seq<Token>)
    requires kw.kind == CASE && ConditionWritten(c, c.tokens) && Braced(acts, b)
    ensures CaseWritten(SwitchCase(Some(c), acts), [kw] + c.tokens + b)
  {
    hide ConditionWritten, Braced;
    var ts, n := [kw] + c.tokens + b, 1 + |c.tokens|;
    assert ts[1..n] == c.tokens && ts[n..] == b;
  }

  lemma DefaultWritten(kw: Token, acts: seq<Action>, b: seq<Token>)
    requires kw.kind == DEFAULT && Braced(acts, b)
    ensures CaseWritten(SwitchCase(None, acts), [kw] + b)
  {
    hide Braced;
    assert ([kw] + b)[1..] == b;
  }

  lemma OneMoreCase(cs: seq<SwitchCase>, ts: seq<Token>, c: SwitchCase, us: seq<Token>)
    requires CasesWritten(cs, ts) && CaseWritten(c, us)
    ensures CasesWritten(cs + [c], ts + us)
  {
    hide CaseWritten;
    var all, n := ts + us, |ts|;
    assert all[..n] == ts && all[n..] == us;
    assert (cs + [c])[..|cs|] == cs;
    assert CasesWritten((cs + [c])[..|cs + [c]| - 1], all[..n]) && CaseWritten((cs + [c])[|cs + [c]| - 1], all[n..]);
  }

  // ---- Assignments and sources, piece by piece ----

  lemma FieldIsWritten(field: Token, eq: Token, v: Value, vs: seq<Token>)
    requires field.kind == IDENTIFIER && eq.kind == ASSIGN && ValueWritten(v, vs)
    ensures FieldWritten(FieldAssignment(field.text, v), [field] + [eq] + vs)
  {
    hide ValueWritten;
    assert ([field] + [eq] + vs)[2..] == vs;
  }

  lemma FirstField(f: FieldAssignment, ts: seq<Token>)
    requires FieldWritten(f, ts)
    ensures FieldsWritten([] + [f], ts)
  {
    hide FieldWritten;
  }

  lemma NextField(fs: seq<FieldAssignment>, ts: seq<Token>, comma: Token, f: FieldAssignment, us: seq<Token>)
    requires fs != [] && FieldsWritten(fs, ts) && comma.kind == COMMA && FieldWritten(f, us)
    ensures FieldsWritten(fs + [f], ts + [comma] + us)
  {
    hide FieldWritten;
    var all, gs, n := ts + [comma] + us, fs + [f], |ts|;
    assert all[..n] == ts && all[n] == comma && all[n + 1..] == us && gs[..|gs| - 1] == fs && gs[|gs| - 1] == f;
    assert FieldsSplit(gs, all, n);
  }

  lemma BlockIsWritten(lb: Token, fs: seq<FieldAssignment>, ts: seq<Token>, rest: seq<Token>, rb: Token)
    requires lb.kind == LBRACE && rb.kind == RBRACE && FieldsWritten(fs, ts)
    requires rest == [] || (fs != [] && |rest| == 1 && rest[0].kind == COMMA)
    ensures BlockWritten(fs, [lb] + (ts + rest) + [rb])
  {
    hide FieldsWritten;
    var all := [lb] + (ts + rest) + [rb];
    assert all[1..|all| - 1] == ts + rest;
    if rest == [] {
      assert ts + rest == ts;
    } else {
      assert (ts + rest)[..|ts|] == ts;
    }
  }

  lemma LiteralsWritten(t: Token)
    ensures t.kind == STRING || (t.kind == IDENTIFIER && UpperName(t.text)) ==> ValueWritten(StringLiteral(t.text), [t])
    ensures t.kind == TRUE || t.kind == FALSE ==> ValueWritten(BooleanLiteral(t.kind == TRUE), [t])
    ensures t.kind == INTEGER || t.kind == DOUBLE ==> ValueWritten(NumberLiteral(t.text), [t])
  {
  }

  lemma ExpressionsWritten(e: string, ts: seq<Token>)
    requires Parsed(e, ts) && StartsComputed(ts)
    ensures if IsReferenceText(e) then ValueWritten(VarRef(e), ts) else ValueWritten(Expression(e), ts)
  {
    hide Parsed;
  }

  /** A list of variables before the closing parenthesis. */
  predicate ListStarted(vars: seq<string>, ts: seq<Token>) {
    && vars != [] && |ts| == 2 * |vars| && ts[0].kind == LPAREN
    && forall i :: 0 <= i < |vars| ==> ts[2 * i + 1] == Token(VARIABLE, vars[i]) && (i < |vars| - 1 ==> ts[2 * i + 2].kind == COMMA)
  }

  lemma ListFirst(lp: Token, v: Token)
    requires lp.kind == LPAREN && v.kind == VARIABLE
    ensures ListStarted([v.text], [lp] + [v])
  {
  }

  lemma ListNext(vars: seq<string>, ts: seq<Token>, comma: Token, v: Token)
    requires ListStarted(vars, ts) && comma.kind == COMMA && v.kind == VARIABLE
    ensures ListStarted(vars + [v.text], ts + [comma] + [v])
  {
    var vs, us := vars + [v.text], ts + [comma] + [v];
    forall i | 0 <= i < |vs| ensures us[2 * i + 1] == Token(VARIABLE, vs[i]) && (i < |vs| - 1 ==> us[2 * i + 2].kind == COMMA) {
      if i < |vars| { assert us[2 * i + 1] == ts[2 * i + 1]; }
      if i < |vars| - 1 { assert us[2 * i + 2] == ts[2 * i + 2]; }
    }
  }

  lemma ListEnds(vars: seq<string>, ts: seq<Token>, rp: Token)
    requires ListStarted(vars, ts) && rp.kind == RPAREN
    ensures SourceWritten(ListOf(vars), ts + [rp])
  {
    var us := ts + [rp];
    forall i | 0 <= i < |vars| ensures us[2 * i + 1] == Token(VARIABLE, vars[i]) && us[2 * i + 2].kind == if i < |vars| - 1 then COMMA else RPAREN {
      assert us[2 * i + 1] == ts[2 * i + 1];
      if i < |vars| - 1 { assert us[2 * i + 2] == ts[2 * i + 2]; }
    }
  }

  lemma VariableWritten(v: Token)
    requires v.kind == VARIABLE
    ensures SourceWritten(Variable(v.text, ""), [v])
  {
  }

  lemma FieldSourceWritten(v: Token, dot: Token, field: Token)
    requires v.kind == VARIABLE && dot.kind == DOT && field.kind == IDENTIFIER
    ensures SourceWritten(Variable(v.text, field.text), [v] + [dot] + [field])
  {
  }
}
