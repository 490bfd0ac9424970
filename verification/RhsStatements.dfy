/** The statements of right-hand sides: syntax trees, the tokens they are written with, the actions
    they compile to, and which of them are accepted. */
module RhsStatements {
  import opened Wrappers
  import opened RhsLexer
  import opened RhsGrammar
  import opened ExpressionRefs
  import opened RhsActions

  // ---- Syntax trees ----

  /** A token that is a value by itself, or an expression. */
  datatype ValueForm = Plain(t: Token) | Computed(e: Expr)

  datatype Assignment = Assign(field: string, value: ValueForm)

  datatype Statement =
    | UpdateOf(target: string, fields: seq<Assignment>, trailing: bool)
    | InsertOf(typeName: string, fields: seq<Assignment>, trailing: bool, logical: bool)
    | RetractOf(target: string)
    | HaltNow
    | FocusOn(group: string)
    | IfThen(test: Expr, thens: seq<Statement>, other: ElsePart)
    | ForEach(x: string, source: Source, body: seq<Statement>)
    | WhileTrue(test: Expr, body: seq<Statement>)
    | SwitchOn(test: Expr, cases: seq<CasePart>)
    | BreakNow
    | ContinueNow

  datatype ElsePart = NoElse | ElseBlock(body: seq<Statement>) | ElseIf(s: Statement)

  /** A case with its value, or the default. */
  datatype CasePart = CasePart(value: Option<Expr>, body: seq<Statement>)

  // ---- Tokens ----

  function Var(x: string): Token { Token(VARIABLE, x) }

  function ValueTokens(v: ValueForm): seq<Token> { match v case Plain(t) => [t] case Computed(e) => ExprTokens(e) }

  function AssignmentTokens(f: Assignment): seq<Token> { [Token(IDENTIFIER, f.field)] + ([Word(ASSIGN)] + ValueTokens(f.value)) }

  function AssignmentsTokens(fs: seq<Assignment>): seq<Token> { if fs == [] then [] else AssignmentTokens(fs[0]) + MoreAssignments(fs[1..]) }

  function MoreAssignments(fs: seq<Assignment>): seq<Token> {
    if fs == [] then [] else [Word(COMMA)] + (AssignmentTokens(fs[0]) + MoreAssignments(fs[1..]))
  }

  /** A comma may follow the last assignment. */
  function Trailing(fs: seq<Assignment>, trailing: bool): seq<Token> { if trailing && fs != [] then [Word(COMMA)] else [] }

  function FieldBlock(fs: seq<Assignment>, trailing: bool): seq<Token> {
    [Word(LBRACE)] + (AssignmentsTokens(fs) + (Trailing(fs, trailing) + [Word(RBRACE)]))
  }

  function MoreVars(vars: seq<string>): seq<Token> { if vars == [] then [] else [Word(COMMA)] + ([Var(vars[0])] + MoreVars(vars[1..])) }

  function VarsTokens(vars: seq<string>): seq<Token> { if vars == [] then [] else [Var(vars[0])] + MoreVars(vars[1..]) }

  function SourceTokens(s: Source): seq<Token> {
    match s
    case ListOf(vars) => [Word(LPAREN)] + (VarsTokens(vars) + [Word(RPAREN)])
    case Variable(x, field) => [Var(x)] + (if field == "" then [] else [Word(DOT)] + [Token(IDENTIFIER, field)])
  }

  function StatementTokens(s: Statement): seq<Token>
    decreases s, 0
  {
    match s
    case UpdateOf(x, fs, trailing) => [Word(UPDATE)] + ([Var(x)] + FieldBlock(fs, trailing))
    case InsertOf(name, fs, trailing, logical) => [Word(if logical then INSERT_LOGICAL else INSERT)] + ([Token(IDENTIFIER, name)] + FieldBlock(fs, trailing))
    case RetractOf(x) => [Word(RETRACT)] + [Var(x)]
    case HaltNow => [Word(HALT)]
    case FocusOn(group) => [Word(SET_FOCUS)] + ([Word(LPAREN)] + ([Token(STRING, group)] + [Word(RPAREN)]))
    case IfThen(e, thens, other) => [Word(IF)] + (ExprTokens(e) + (BlockTokens(thens) + ElseTokens(other)))
    case ForEach(x, source, body) => [Word(FOR)] + ([Var(x)] + ([Word(IN)] + (SourceTokens(source) + BlockTokens(body))))
    case WhileTrue(e, body) => [Word(WHILE)] + (ExprTokens(e) + BlockTokens(body))
    case SwitchOn(e, cases) => [Word(SWITCH)] + (ExprTokens(e) + CaseBlockTokens(cases))
    case BreakNow => [Word(BREAK)]
    case ContinueNow => [Word(CONTINUE)]
  }

  function ProgramTokens(p: seq<Statement>): seq<Token>
    decreases p, 1
  {
    if p == [] then [] else StatementTokens(p[0]) + ProgramTokens(p[1..])
  }

  function BlockTokens(p: seq<Statement>): seq<Token>
    decreases p, 2
  {
    [Word(LBRACE)] + (ProgramTokens(p) + [Word(RBRACE)])
  }

  function ElseTokens(other: ElsePart): seq<Token>
    decreases other, 0
  {
    match other
    case NoElse => []
    case ElseBlock(body) => [Word(ELSE)] + BlockTokens(body)
    case ElseIf(s) => [Word(ELSE)] + StatementTokens(s)
  }

  function CaseTokens(c: CasePart): seq<Token>
    decreases c, 0
  {
    match c.value
    case Some(e) => [Word(CASE)] + (ExprTokens(e) + BlockTokens(c.body))
    case None => [Word(DEFAULT)] + BlockTokens(c.body)
  }

  function CasesTokens(cs: seq<CasePart>): seq<Token>
    decreases cs, 0
  {
    if cs == [] then [] else CaseTokens(cs[0]) + CasesTokens(cs[1..])
  }

  function CaseBlockTokens(cs: seq<CasePart>): seq<Token>
    decreases cs, 1
  {
    [Word(LBRACE)] + (CasesTokens(cs) + [Word(RBRACE)])
  }

  // ---- The actions they compile to ----

  function ConditionOf(e: Expr): Condition { Condition(ExprText(e), ExprTokens(e)) }

  /** Strings and upper-case names, truth values and numbers are literals; an expression is a
      reference if its text starts with `$` and holds no operator character. */
  function ValueOf(v: ValueForm): Value {
    match v
    case Plain(t) =>
      if t.kind == TRUE || t.kind == FALSE then BooleanLiteral(t.kind == TRUE)
      else if t.kind == INTEGER || t.kind == DOUBLE then NumberLiteral(t.text)
      else StringLiteral(t.text)
    case Computed(e) => if IsReferenceText(ExprText(e)) then VarRef(ExprText(e)) else Expression(ExprText(e))
  }

  function AssignmentsOf(fs: seq<Assignment>): seq<FieldAssignment> {
    if fs == [] then [] else [FieldAssignment(fs[0].field, ValueOf(fs[0].value))] + AssignmentsOf(fs[1..])
  }

  function ActionOf(s: Statement): Action
    decreases s, 0
  {
    match s
    case UpdateOf(x, fs, _) => Update(x, AssignmentsOf(fs))
    case InsertOf(name, fs, _, logical) => Insert(name, AssignmentsOf(fs), logical)
    case RetractOf(x) => Retract(x)
    case HaltNow => Halt
    case FocusOn(group) => SetFocus(group)
    case IfThen(e, thens, other) => If(ConditionOf(e), ActionsOf(thens), ElseActions(other))
    case ForEach(x, source, body) => For(x, source, ActionsOf(body))
    case WhileTrue(e, body) => While(ConditionOf(e), ActionsOf(body))
    case SwitchOn(e, cases) => Switch(ConditionOf(e), CasesOf(cases))
    case BreakNow => Break
    case ContinueNow => Continue
  }

  function ActionsOf(p: seq<Statement>): seq<Action>
    decreases p, 1
  {
    if p == [] then [] else [ActionOf(p[0])] + ActionsOf(p[1..])
  }

  function ElseActions(other: ElsePart): seq<Action>
    decreases other, 0
  {
    match other
    case NoElse => []
    case ElseBlock(body) => ActionsOf(body)
    case ElseIf(s) => [ActionOf(s)]
  }

  function CaseOf(c: CasePart): SwitchCase
    decreases c, 0
  {
    SwitchCase(if c.value.Some? then Some(ConditionOf(c.value.value)) else None, ActionsOf(c.body))
  }

  function CasesOf(cs: seq<CasePart>): seq<SwitchCase>
    decreases cs, 0
  {
    if cs == [] then [] else [CaseOf(cs[0])] + CasesOf(cs[1..])
  }

  // ---- Which trees are statements ----

  /** An expression in the place of a value does not start with a literal. */
  predicate ProperValue(v: ValueForm) {
    match v
    case Plain(t) => IsLiteral([t])
    case Computed(e) => Full(e) && StartsComputed(ExprTokens(e))
  }

  predicate ProperFields(fs: seq<Assignment>) { forall i :: 0 <= i < |fs| ==> ProperValue(fs[i].value) }

  predicate ProperSource(s: Source) { s.ListOf? ==> s.vars != [] }

  predicate Proper(s: Statement)
    decreases s, 0
  {
    match s
    case UpdateOf(_, fs, _) => ProperFields(fs)
    case InsertOf(_, fs, _, _) => ProperFields(fs)
    case IfThen(e, thens, other) => Full(e) && (forall i :: 0 <= i < |thens| ==> Proper(thens[i])) && ProperElse(other)
    case ForEach(_, source, body) => ProperSource(source) && forall i :: 0 <= i < |body| ==> Proper(body[i])
    case WhileTrue(e, body) => Full(e) && forall i :: 0 <= i < |body| ==> Proper(body[i])
    case SwitchOn(e, cases) => Full(e) && ProperCases(cases)
    case _ => true
  }

  predicate ProperElse(other: ElsePart)
    decreases other, 0
  {
    match other
    case NoElse => true
    case ElseBlock(body) => forall i :: 0 <= i < |body| ==> Proper(body[i])
    case ElseIf(s) => s.IfThen? && Proper(s)
  }

  predicate ProperCase(c: CasePart)
    decreases c, 0
  {
    (c.value.Some? ==> Full(c.value.value)) && forall i :: 0 <= i < |c.body| ==> Proper(c.body[i])
  }

  predicate ProperCases(cs: seq<CasePart>)
    decreases cs, 0
  {
    forall i :: 0 <= i < |cs| ==> ProperCase(cs[i])
  }

  predicate ProperAll(p: seq<Statement>) { forall i :: 0 <= i < |p| ==> Proper(p[i]) }

  // ---- Which statements are accepted ----

  /** What an operand may call and refer to. */
  ghost predicate GoodValue(v: ValueForm, sc: Scope, known: string -> bool) {
    v.Computed? ==>
      var e, ts := ExprText(v.e), ExprTokens(v.e);
      && (|ts| >= 2 && ts[0].kind == IDENTIFIER && ts[1].kind == LPAREN ==> known(ts[0].text))
      && if IsReferenceText(e) then Base(e) in Sources(sc) else RefsOk(e, Sources(sc))
  }

  ghost predicate GoodFields(fs: seq<Assignment>, sc: Scope, known: string -> bool) { forall i :: 0 <= i < |fs| ==> GoodValue(fs[i].value, sc, known) }

  ghost predicate GoodTest(e: Expr, sc: Scope) { RefsOk(ExprText(e), Sources(sc)) }

  /** Targets, sources and references are declared where they stand, and values call known functions only. */
  ghost predicate Good(s: Statement, sc: Scope, known: string -> bool)
    decreases s, 0
  {
    match s
    case UpdateOf(x, fs, _) => x in sc.facts && GoodFields(fs, sc, known)
    case InsertOf(_, fs, _, _) => GoodFields(fs, sc, known)
    case RetractOf(x) => x in sc.facts
    case IfThen(e, thens, other) => GoodTest(e, sc) && GoodAll(thens, sc, known) && GoodElse(other, sc, known)
    case ForEach(x, source, body) => SourceScoped(source, sc) && GoodAll(body, sc.(facts := sc.facts + {x}), known)
    case WhileTrue(e, body) => GoodTest(e, sc) && GoodAll(body, sc, known)
    case SwitchOn(e, cases) => GoodTest(e, sc) && GoodCases(cases, sc, known)
    case _ => true
  }

  ghost predicate GoodAll(p: seq<Statement>, sc: Scope, known: string -> bool)
    decreases p, 1
  {
    forall i :: 0 <= i < |p| ==> Good(p[i], sc, known)
  }

  ghost predicate GoodElse(other: ElsePart, sc: Scope, known: string -> bool)
    decreases other, 0
  {
    match other
    case NoElse => true
    case ElseBlock(body) => GoodAll(body, sc, known)
    case ElseIf(s) => Good(s, sc, known)
  }

  ghost predicate GoodCase(c: CasePart, sc: Scope, known: string -> bool)
    decreases c, 0
  {
    (c.value.Some? ==> GoodTest(c.value.value, sc)) && GoodAll(c.body, sc, known)
  }

  ghost predicate GoodCases(cs: seq<CasePart>, sc: Scope, known: string -> bool)
    decreases cs, 0
  {
    forall i :: 0 <= i < |cs| ==> GoodCase(cs[i], sc, known)
  }
}
